/** The parts of `java.lang` and `java.util` that the domain classes lean on:
    `Objects.requireNonNull`, `List.equals`, and the `hashCode` arithmetic of
    `String`, `Boolean` and `Objects.hash` on 32-bit two's-complement ints. */
module JavaObjects {
  import opened Wrappers

  /** The exception a builder throws: `Objects.requireNonNull(x, "name")` raises a
      `NullPointerException` whose message is the field name; the one-argument
      form raises one without a message. */
  datatype BuildError = NullPointer(message: Option<string>)

  /** `Objects.requireNonNull(x, field)`: the value, or the exception naming `field`. */
  function RequireNonNull<T>(x: Option<T>, field: string): (r: Result<T, BuildError>)
    ensures r.Success? <==> x.Some?
    ensures r.Success? ==> r.value == x.value
    ensures r.Failure? ==> r.error == NullPointer(Some(field))
  {
    match x
    case Some(v) => Success(v)
    case None => Failure(NullPointer(Some(field)))
  }

  /** `Objects.requireNonNull(x)`, the form without a message. */
  function RequireNonNullUnnamed<T>(x: Option<T>): (r: Result<T, BuildError>)
    ensures r.Success? <==> x.Some?
    ensures r.Success? ==> r.value == x.value
    ensures r.Failure? ==> r.error == NullPointer(None)
  {
    match x
    case Some(v) => Success(v)
    case None => Failure(NullPointer(None))
  }

  /** `List.equals` (as `AbstractList.equals` implements it): walk both lists
      together, comparing elements with the element type's `equals`, and succeed
      only if both run out at the same time. */
  function ListEquals<T>(xs: seq<T>, ys: seq<T>, eq: (T, T) -> bool): bool
  {
    if xs == [] || ys == [] then xs == [] && ys == []
    else eq(xs[0], ys[0]) && ListEquals(xs[1..], ys[1..], eq)
  }

  /** When the element `equals` is value equality, so is `List.equals`. */
  lemma {:induction false} ListEqualsIsValueEquality<T>(xs: seq<T>, ys: seq<T>, eq: (T, T) -> bool)
    requires forall a, b :: eq(a, b) <==> a == b
    ensures ListEquals(xs, ys, eq) <==> xs == ys
  {
    if xs != [] && ys != [] {
      ListEqualsIsValueEquality(xs[1..], ys[1..], eq);
      assert xs == [xs[0]] + xs[1..] && ys == [ys[0]] + ys[1..];
    }
  }

  /** `list.stream().map(f).collect(Collectors.toList())`: `f` applied to each
      element, in order. */
  function StreamMap<T>(xs: seq<T>, f: T -> T): (r: seq<T>)
    ensures |r| == |xs|
    ensures forall i :: 0 <= i < |xs| ==> r[i] == f(xs[i])
  {
    if xs == [] then [] else [f(xs[0])] + StreamMap(xs[1..], f)
  }

  /** Mapping a function that gives back its argument yields the same list. */
  lemma {:induction false} StreamMapOfIdentity<T>(xs: seq<T>, f: T -> T)
    requires forall x :: f(x) == x
    ensures StreamMap(xs, f) == xs
  {
    if xs != [] {
      StreamMapOfIdentity(xs[1..], f);
      assert [xs[0]] + xs[1..] == xs;
    }
  }

  /** A Java `int`, as its 32-bit two's-complement bit pattern: `+` and `*` wrap. */
  type JavaInt = bv32

  /** `String.hashCode`: `s[0]*31^(n-1) + ... + s[n-1]` in `int` arithmetic. */
  function StringHash(s: string): JavaInt
  {
    if s == [] then 0
    else 31 * StringHash(s[..|s| - 1]) + (s[|s| - 1] as int as bv32)
  }

  /** `Boolean.hashCode`. */
  function BooleanHash(b: bool): JavaInt
  {
    if b then 1231 else 1237
  }

  /** The hash of a nullable field inside `Objects.hash`: `null` hashes to 0. */
  function NullableHash<T>(x: Option<T>, hash: T -> JavaInt): JavaInt
  {
    match x
    case Some(v) => hash(v)
    case None => 0
  }

  /** `Objects.hash(a1, ..., an)`, i.e. `Arrays.hashCode`: start from 1 and fold
      `31 * result + hash(ai)` over the arguments from left to right. */
  function ObjectsHash(fieldHashes: seq<JavaInt>): JavaInt
  {
    if fieldHashes == [] then 1
    else 31 * ObjectsHash(fieldHashes[..|fieldHashes| - 1]) + fieldHashes[|fieldHashes| - 1]
  }
}
