/** `SoapOperationIdentifier`: the name of a SOAP operation together with its
    optional XML namespace. An immutable value built through a mutable `Builder`. */
module SoapOperationIdentifiers {
  import opened Wrappers
  import opened JavaObjects

  /** A built identifier; `namespace` is what `getNamespace()` returns. */
  datatype SoapOperationIdentifier = SoapOperationIdentifier(name: string, namespace: Option<string>)
  {
    /** `equals`: `Objects.equals` on the name and on the namespace, so an absent
        namespace equals only another absent one. */
    predicate Equals(that: SoapOperationIdentifier)
    {
      name == that.name && namespace == that.namespace
    }

    /** `hashCode`: `Objects.hash(name, namespace)`, with a `null` namespace hashing to 0. */
    function HashCode(): JavaInt
    {
      ObjectsHash([StringHash(name), NullableHash(namespace, StringHash)])
    }
  }

  /** The state of a `Builder`. */
  datatype Fields = Fields(name: Option<string>, namespace: Option<string>)

  /** The private constructor: the name is required, the namespace kept as given. */
  function Make(f: Fields): (r: Result<SoapOperationIdentifier, BuildError>)
    ensures r.Success? <==> f.name.Some?
    ensures r.Success? ==> r.value.name == f.name.value && r.value.namespace == f.namespace
    ensures r.Failure? ==> r.error == NullPointer(Some("name"))
  {
    var name :- RequireNonNull(f.name, "name");
    Success(SoapOperationIdentifier(name, f.namespace))
  }

  /** `getNamespace()` is empty exactly when the builder was given no namespace. */
  lemma NamespaceAbsentIffUnset(f: Fields)
    requires f.name.Some?
    ensures Make(f).Success? && (Make(f).value.namespace.None? <==> f.namespace.None?)
  {
  }

  /** `equals` holds exactly when both names and both namespaces are the same,
      and equal identifiers hash alike. */
  lemma EqualsIsValueEquality(a: SoapOperationIdentifier, b: SoapOperationIdentifier)
    ensures a.Equals(b) <==> a == b
    ensures a.Equals(b) ==> a.HashCode() == b.HashCode()
  {
  }

  /** Identifiers that differ only in whether a namespace is present are not equal. */
  lemma AbsentNamespaceEqualsOnlyAbsent(a: SoapOperationIdentifier, b: SoapOperationIdentifier)
    requires a.namespace.None? && b.namespace.Some?
    ensures !a.Equals(b) && !b.Equals(a)
  {
  }

  /** A builder: each setter overwrites its own field and touches nothing else. */
  class Builder {
    var name: Option<string>
    var namespace: Option<string>

    /** The builder's fields as one value. */
    function State(): Fields
      reads this
    {
      Fields(name, namespace)
    }

    /** `SoapOperationIdentifier.builder()`: nothing set yet. */
    constructor ()
      ensures State() == Fields(None, None)
    {
      name, namespace := None, None;
    }

    method SetName(name: Option<string>)
      modifies this
      ensures State() == old(State()).(name := name)
    {
      this.name := name;
    }

    method SetNamespace(namespace: Option<string>)
      modifies this
      ensures State() == old(State()).(namespace := namespace)
    {
      this.namespace := namespace;
    }

    /** `Builder.build()`. */
    function Build(): Result<SoapOperationIdentifier, BuildError>
      reads this
    {
      Make(State())
    }
  }
}
