/** `RestParameterQuery`: a match condition on one request parameter. Only its
    data is modelled here; how a request is matched against it is not. */
module RestParameterQueries {
  import opened Wrappers
  import opened JavaObjects

  datatype RestParameterQuery = RestParameterQuery(
    parameter: string,
    query: string,
    matchCase: bool,
    matchAny: bool,
    matchRegex: bool,
    urlEncoded: bool)
  {
    /** `equals`: all six fields agree. */
    predicate Equals(that: RestParameterQuery)
    {
      && matchCase == that.matchCase
      && matchAny == that.matchAny
      && matchRegex == that.matchRegex
      && urlEncoded == that.urlEncoded
      && parameter == that.parameter
      && query == that.query
    }

    /** `hashCode`: `Objects.hash(parameter, query, matchCase, matchAny, matchRegex, urlEncoded)`. */
    function HashCode(): JavaInt
    {
      ObjectsHash([StringHash(parameter), StringHash(query), BooleanHash(matchCase),
                   BooleanHash(matchAny), BooleanHash(matchRegex), BooleanHash(urlEncoded)])
    }

    /** What `toBuilder()` puts in the fresh builder. */
    function ToBuilderFields(): Fields
    {
      Fields(Some(parameter), Some(query), Some(matchCase), Some(matchAny), Some(matchRegex), Some(urlEncoded))
    }

    /** `toBuilder()`: a fresh builder holding all six fields. */
    method ToBuilder() returns (b: Builder)
      ensures fresh(b) && b.State() == ToBuilderFields()
    {
      b := new Builder();
      b.SetParameter(Some(parameter));
      b.SetQuery(Some(query));
      b.SetMatchCase(Some(matchCase));
      b.SetMatchAny(Some(matchAny));
      b.SetMatchRegex(Some(matchRegex));
      b.SetUrlEncoded(Some(urlEncoded));
    }
  }

  /** The state of a `Builder`; the four flags are boxed `Boolean`s there, so they may be `null` too. */
  datatype Fields = Fields(
    parameter: Option<string>,
    query: Option<string>,
    matchCase: Option<bool>,
    matchAny: Option<bool>,
    matchRegex: Option<bool>,
    urlEncoded: Option<bool>)

  /** The private constructor: every field is required, checked in declaration
      order, and the first missing one is named in the exception. */
  function Make(f: Fields): (r: Result<RestParameterQuery, BuildError>)
    ensures r.Success? <==>
      f.parameter.Some? && f.query.Some? && f.matchCase.Some? && f.matchAny.Some? && f.matchRegex.Some? && f.urlEncoded.Some?
    ensures r.Success? ==> r.value == RestParameterQuery(f.parameter.value, f.query.value, f.matchCase.value,
                                                          f.matchAny.value, f.matchRegex.value, f.urlEncoded.value)
    ensures f.parameter.None? ==> r == Failure(NullPointer(Some("parameter")))
    ensures f.parameter.Some? && f.query.None? ==> r == Failure(NullPointer(Some("query")))
    ensures f.parameter.Some? && f.query.Some? && f.matchCase.None? ==> r == Failure(NullPointer(Some("matchCase")))
    ensures f.parameter.Some? && f.query.Some? && f.matchCase.Some? && f.matchAny.None? ==>
      r == Failure(NullPointer(Some("matchAny")))
    ensures f.parameter.Some? && f.query.Some? && f.matchCase.Some? && f.matchAny.Some? && f.matchRegex.None? ==>
      r == Failure(NullPointer(Some("matchRegex")))
    ensures f.parameter.Some? && f.query.Some? && f.matchCase.Some? && f.matchAny.Some? && f.matchRegex.Some? && f.urlEncoded.None? ==>
      r == Failure(NullPointer(Some("urlEncoded")))
  {
    var parameter :- RequireNonNull(f.parameter, "parameter");
    var query :- RequireNonNull(f.query, "query");
    var matchCase :- RequireNonNull(f.matchCase, "matchCase");
    var matchAny :- RequireNonNull(f.matchAny, "matchAny");
    var matchRegex :- RequireNonNull(f.matchRegex, "matchRegex");
    var urlEncoded :- RequireNonNull(f.urlEncoded, "urlEncoded");
    Success(RestParameterQuery(parameter, query, matchCase, matchAny, matchRegex, urlEncoded))
  }

  /** `q.toBuilder().build()` as one value; the builder is filled from a built
      value, so `build()` cannot throw. */
  function Rebuilt(q: RestParameterQuery): RestParameterQuery
  {
    Make(q.ToBuilderFields()).value
  }

  /** `toBuilder().build()` gives back an equal query: the getters return what was built. */
  lemma RoundTrip(q: RestParameterQuery)
    ensures Make(q.ToBuilderFields()) == Success(q)
  {
  }

  /** `equals` holds exactly when all six fields are the same, and equal queries hash alike. */
  lemma EqualsIsValueEquality(a: RestParameterQuery, b: RestParameterQuery)
    ensures a.Equals(b) <==> a == b
    ensures a.Equals(b) ==> a.HashCode() == b.HashCode()
  {
  }

  /** A builder: every setter overwrites its own field and touches nothing else. */
  class Builder {
    var parameter: Option<string>
    var query: Option<string>
    var matchCase: Option<bool>
    var matchAny: Option<bool>
    var matchRegex: Option<bool>
    var urlEncoded: Option<bool>

    /** The builder's fields as one value. */
    function State(): Fields
      reads this
    {
      Fields(parameter, query, matchCase, matchAny, matchRegex, urlEncoded)
    }

    /** `RestParameterQuery.builder()`: nothing set yet. */
    constructor ()
      ensures State() == Fields(None, None, None, None, None, None)
    {
      parameter, query := None, None;
      matchCase, matchAny, matchRegex, urlEncoded := None, None, None, None;
    }

    method SetParameter(parameter: Option<string>)
      modifies this
      ensures State() == old(State()).(parameter := parameter)
    {
      this.parameter := parameter;
    }

    method SetQuery(query: Option<string>)
      modifies this
      ensures State() == old(State()).(query := query)
    {
      this.query := query;
    }

    method SetMatchCase(matchCase: Option<bool>)
      modifies this
      ensures State() == old(State()).(matchCase := matchCase)
    {
      this.matchCase := matchCase;
    }

    method SetMatchAny(matchAny: Option<bool>)
      modifies this
      ensures State() == old(State()).(matchAny := matchAny)
    {
      this.matchAny := matchAny;
    }

    method SetMatchRegex(matchRegex: Option<bool>)
      modifies this
      ensures State() == old(State()).(matchRegex := matchRegex)
    {
      this.matchRegex := matchRegex;
    }

    method SetUrlEncoded(urlEncoded: Option<bool>)
      modifies this
      ensures State() == old(State()).(urlEncoded := urlEncoded)
    {
      this.urlEncoded := urlEncoded;
    }

    /** `Builder.build()`. */
    function Build(): Result<RestParameterQuery, BuildError>
      reads this
    {
      Make(State())
    }
  }

  /** `q.toBuilder().build()`, run through the builder object: it never throws
      and yields a query equal to `q`. */
  method ToBuilderThenBuild(q: RestParameterQuery) returns (r: Result<RestParameterQuery, BuildError>)
    ensures r == Success(q)
  {
    var b := q.ToBuilder();
    r := b.Build();
    RoundTrip(q);
  }
}
