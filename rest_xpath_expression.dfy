/** `RestXPathExpression`: an XPath match condition on a REST request body.
    An immutable value built through a mutable `Builder`. */
module RestXPathExpressions {
  import opened Wrappers
  import opened JavaObjects

  datatype RestXPathExpression = RestXPathExpression(expression: string)
  {
    /** `equals`: the expressions are equal strings. */
    predicate Equals(that: RestXPathExpression)
    {
      expression == that.expression
    }

    /** `hashCode`: `Objects.hash(expression)`. */
    function HashCode(): JavaInt
    {
      ObjectsHash([StringHash(expression)])
    }

    /** What `toBuilder()` puts in the fresh builder. */
    function ToBuilderFields(): Fields
    {
      Fields(Some(expression))
    }

    /** `toBuilder()`: a fresh builder holding this expression. */
    method ToBuilder() returns (b: Builder)
      ensures fresh(b) && b.State() == ToBuilderFields()
    {
      b := new Builder();
      b.SetExpression(Some(expression));
    }
  }

  /** The state of a `Builder`: each field may still be `null`. */
  datatype Fields = Fields(expression: Option<string>)

  /** The private constructor `RestXPathExpression(Builder)`: the expression is required. */
  function Make(f: Fields): (r: Result<RestXPathExpression, BuildError>)
    ensures r.Success? <==> f.expression.Some?
    ensures r.Success? ==> r.value.expression == f.expression.value
    ensures r.Failure? ==> r.error == NullPointer(Some("expression"))
  {
    var expression :- RequireNonNull(f.expression, "expression");
    Success(RestXPathExpression(expression))
  }

  /** `x.toBuilder().build()` as one value: the copy a stream of these makes of
      each element. The builder is filled from a built value, so `build()` cannot throw. */
  function Rebuilt(x: RestXPathExpression): RestXPathExpression
  {
    Make(x.ToBuilderFields()).value
  }

  /** `toBuilder().build()` gives back an equal expression. */
  lemma RoundTrip(x: RestXPathExpression)
    ensures Make(x.ToBuilderFields()) == Success(x)
  {
  }

  /** `equals` holds exactly when the two values are the same, and equal values hash alike. */
  lemma EqualsIsValueEquality(a: RestXPathExpression, b: RestXPathExpression)
    ensures a.Equals(b) <==> a == b
    ensures a.Equals(b) ==> a.HashCode() == b.HashCode()
  {
  }

  /** A builder: every setter overwrites its own field and touches nothing else. */
  class Builder {
    var expression: Option<string>

    /** The builder's fields as one value. */
    function State(): Fields
      reads this
    {
      Fields(expression)
    }

    /** `RestXPathExpression.builder()`: nothing set yet. */
    constructor ()
      ensures State() == Fields(None)
    {
      expression := None;
    }

    /** `Builder.expression(...)`. */
    method SetExpression(expression: Option<string>)
      modifies this
      ensures State() == old(State()).(expression := expression)
    {
      this.expression := expression;
    }

    /** `Builder.build()`. */
    function Build(): Result<RestXPathExpression, BuildError>
      reads this
    {
      Make(State())
    }
  }

  /** `x.toBuilder().build()`, run through the builder object: it never throws
      and yields a value equal to `x`. */
  method ToBuilderThenBuild(x: RestXPathExpression) returns (r: Result<RestXPathExpression, BuildError>)
    ensures r == Success(x)
  {
    var b := x.ToBuilder();
    r := b.Build();
    RoundTrip(x);
  }
}
