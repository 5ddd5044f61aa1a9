/** `RestMockResponse`: one canned response of a REST method, with the
    conditions under which it is chosen. An immutable value built through a
    mutable `Builder`. */
module RestMockResponses {
  import opened Wrappers
  import opened JavaObjects
  import opened ExternalTypes
  import RestParameterQueries
  import RestXPathExpressions

  type RestParameterQuery = RestParameterQueries.RestParameterQuery
  type RestXPathExpression = RestXPathExpressions.RestXPathExpression

  /** A built response. `body` and `usingExpressions` may be absent; the lists
      never are (an unset list was replaced by an empty one). Every getter is the
      field itself: the `Optional` getters return these `Option`s, and the list
      getters' defensive copies are the same sequence. */
  datatype RestMockResponse = RestMockResponse(
    id: string,
    name: string,
    body: Option<string>,
    methodId: string,
    httpStatusCode: int,
    status: RestMockResponseStatus,
    usingExpressions: Option<bool>,
    httpHeaders: seq<HttpHeader>,
    contentEncodings: seq<HttpContentEncoding>,
    parameterQueries: seq<RestParameterQuery>,
    xpathExpressions: seq<RestXPathExpression>,
    jsonPathExpressions: seq<RestJsonPathExpression>,
    headerQueries: seq<RestHeaderQuery>)
  {
    /** `equals`: all thirteen fields agree; the parameter-query and XPath lists
        are compared element by element with those classes' own `equals`. */
    predicate Equals(that: RestMockResponse)
    {
      && usingExpressions == that.usingExpressions
      && id == that.id
      && name == that.name
      && body == that.body
      && methodId == that.methodId
      && httpStatusCode == that.httpStatusCode
      && status == that.status
      && httpHeaders == that.httpHeaders
      && contentEncodings == that.contentEncodings
      && ListEquals(parameterQueries, that.parameterQueries, QueryEquals)
      && ListEquals(xpathExpressions, that.xpathExpressions, ExpressionEquals)
      && jsonPathExpressions == that.jsonPathExpressions
      && headerQueries == that.headerQueries
    }

    /** What `toBuilder()` puts in the fresh builder: every field, with the
        parameter queries and XPath expressions each rebuilt through their own
        `toBuilder().build()`. */
    function ToBuilderFields(): Fields
    {
      Fields(Some(id), Some(name), body, Some(methodId), Some(httpStatusCode), Some(status), usingExpressions,
             Some(httpHeaders), Some(contentEncodings),
             Some(StreamMap(parameterQueries, RestParameterQueries.Rebuilt)),
             Some(StreamMap(xpathExpressions, RestXPathExpressions.Rebuilt)),
             Some(jsonPathExpressions), Some(headerQueries))
    }

    /** `toBuilder()`: a fresh builder holding a copy of every field. */
    method ToBuilder() returns (b: Builder)
      ensures fresh(b) && b.State() == ToBuilderFields()
    {
      b := new Builder();
      b.SetId(Some(id));
      b.SetName(Some(name));
      b.SetBody(body);
      b.SetMethodId(Some(methodId));
      b.SetStatus(Some(status));
      b.SetHttpStatusCode(Some(httpStatusCode));
      b.SetUsingExpressions(usingExpressions);
      b.SetHttpHeaders(Some(httpHeaders));
      b.SetContentEncodings(Some(contentEncodings));
      b.SetParameterQueries(Some(StreamMap(parameterQueries, RestParameterQueries.Rebuilt)));
      b.SetXpathExpressions(Some(StreamMap(xpathExpressions, RestXPathExpressions.Rebuilt)));
      b.SetJsonPathExpressions(Some(jsonPathExpressions));
      b.SetHeaderQueries(Some(headerQueries));
    }
  }

  /** `RestParameterQuery.equals`, as a function value for `List.equals`. */
  function QueryEquals(a: RestParameterQuery, b: RestParameterQuery): bool
  {
    a.Equals(b)
  }

  /** `RestXPathExpression.equals`, as a function value for `List.equals`. */
  function ExpressionEquals(a: RestXPathExpression, b: RestXPathExpression): bool
  {
    a.Equals(b)
  }

  /** The state of a `Builder`: every field may still be `null`. */
  datatype Fields = Fields(
    id: Option<string>,
    name: Option<string>,
    body: Option<string>,
    methodId: Option<string>,
    httpStatusCode: Option<int>,
    status: Option<RestMockResponseStatus>,
    usingExpressions: Option<bool>,
    httpHeaders: Option<seq<HttpHeader>>,
    contentEncodings: Option<seq<HttpContentEncoding>>,
    parameterQueries: Option<seq<RestParameterQuery>>,
    xpathExpressions: Option<seq<RestXPathExpression>>,
    jsonPathExpressions: Option<seq<RestJsonPathExpression>>,
    headerQueries: Option<seq<RestHeaderQuery>>)

  /** The private constructor `RestMockResponse(Builder)`: id, status, name,
      methodId and httpStatusCode are required and checked in that order; body
      and usingExpressions are kept as given, absent or not; an unset list becomes empty. */
  function Make(f: Fields): (r: Result<RestMockResponse, BuildError>)
    ensures r.Success? <==> f.id.Some? && f.status.Some? && f.name.Some? && f.methodId.Some? && f.httpStatusCode.Some?
    ensures r.Success? ==>
      && r.value.id == f.id.value
      && r.value.status == f.status.value
      && r.value.name == f.name.value
      && r.value.methodId == f.methodId.value
      && r.value.httpStatusCode == f.httpStatusCode.value
      && r.value.usingExpressions == f.usingExpressions
      && r.value.body == f.body
      && r.value.httpHeaders == f.httpHeaders.GetOr([])
      && r.value.contentEncodings == f.contentEncodings.GetOr([])
      && r.value.parameterQueries == f.parameterQueries.GetOr([])
      && r.value.xpathExpressions == f.xpathExpressions.GetOr([])
      && r.value.jsonPathExpressions == f.jsonPathExpressions.GetOr([])
      && r.value.headerQueries == f.headerQueries.GetOr([])
    ensures f.id.None? ==> r == Failure(NullPointer(Some("id")))
    ensures f.id.Some? && f.status.None? ==> r == Failure(NullPointer(Some("status")))
    ensures f.id.Some? && f.status.Some? && f.name.None? ==> r == Failure(NullPointer(Some("name")))
    ensures f.id.Some? && f.status.Some? && f.name.Some? && f.methodId.None? ==> r == Failure(NullPointer(Some("methodId")))
    ensures f.id.Some? && f.status.Some? && f.name.Some? && f.methodId.Some? && f.httpStatusCode.None? ==>
      r == Failure(NullPointer(Some("httpStatusCode")))
  {
    var id :- RequireNonNull(f.id, "id");
    var status :- RequireNonNull(f.status, "status");
    var name :- RequireNonNull(f.name, "name");
    var methodId :- RequireNonNull(f.methodId, "methodId");
    var httpStatusCode :- RequireNonNull(f.httpStatusCode, "httpStatusCode");
    Success(RestMockResponse(id, name, f.body, methodId, httpStatusCode, status, f.usingExpressions,
                             f.httpHeaders.GetOr([]), f.contentEncodings.GetOr([]),
                             f.parameterQueries.GetOr([]), f.xpathExpressions.GetOr([]),
                             f.jsonPathExpressions.GetOr([]), f.headerQueries.GetOr([])))
  }

  /** `toBuilder().build()` gives back an equal response: rebuilding each
      condition through its own builder changes none of them. */
  lemma {:induction false} RoundTrip(r: RestMockResponse)
    ensures Make(r.ToBuilderFields()) == Success(r)
  {
    forall q ensures RestParameterQueries.Rebuilt(q) == q {
      RestParameterQueries.RoundTrip(q);
    }
    forall x ensures RestXPathExpressions.Rebuilt(x) == x {
      RestXPathExpressions.RoundTrip(x);
    }
    StreamMapOfIdentity(r.parameterQueries, RestParameterQueries.Rebuilt);
    StreamMapOfIdentity(r.xpathExpressions, RestXPathExpressions.Rebuilt);
  }

  /** `equals` holds exactly when all thirteen fields are the same value; since
      `hashCode` is `Objects.hash` of those same thirteen fields, equal responses hash alike. */
  lemma EqualsIsValueEquality(a: RestMockResponse, b: RestMockResponse)
    ensures a.Equals(b) <==> a == b
  {
    forall x, y ensures QueryEquals(x, y) <==> x == y {
      RestParameterQueries.EqualsIsValueEquality(x, y);
    }
    forall x, y ensures ExpressionEquals(x, y) <==> x == y {
      RestXPathExpressions.EqualsIsValueEquality(x, y);
    }
    ListEqualsIsValueEquality(a.parameterQueries, b.parameterQueries, QueryEquals);
    ListEqualsIsValueEquality(a.xpathExpressions, b.xpathExpressions, ExpressionEquals);
  }

  /** A builder: every setter overwrites its own field and touches nothing else,
      so a later call to the same setter replaces an earlier one. */
  class Builder {
    var id: Option<string>
    var name: Option<string>
    var body: Option<string>
    var methodId: Option<string>
    var httpStatusCode: Option<int>
    var status: Option<RestMockResponseStatus>
    var usingExpressions: Option<bool>
    var httpHeaders: Option<seq<HttpHeader>>
    var contentEncodings: Option<seq<HttpContentEncoding>>
    var parameterQueries: Option<seq<RestParameterQuery>>
    var xpathExpressions: Option<seq<RestXPathExpression>>
    var jsonPathExpressions: Option<seq<RestJsonPathExpression>>
    var headerQueries: Option<seq<RestHeaderQuery>>

    /** The builder's fields as one value. */
    function State(): Fields
      reads this
    {
      Fields(id, name, body, methodId, httpStatusCode, status, usingExpressions, httpHeaders, contentEncodings,
             parameterQueries, xpathExpressions, jsonPathExpressions, headerQueries)
    }

    /** `RestMockResponse.builder()`: nothing set yet. */
    constructor ()
      ensures State() == Fields(None, None, None, None, None, None, None, None, None, None, None, None, None)
    {
      id, name, body, methodId, httpStatusCode, status, usingExpressions := None, None, None, None, None, None, None;
      httpHeaders, contentEncodings, parameterQueries := None, None, None;
      xpathExpressions, jsonPathExpressions, headerQueries := None, None, None;
    }

    method SetId(id: Option<string>)
      modifies this
      ensures State() == old(State()).(id := id)
    {
      this.id := id;
    }

    method SetName(name: Option<string>)
      modifies this
      ensures State() == old(State()).(name := name)
    {
      this.name := name;
    }

    method SetBody(body: Option<string>)
      modifies this
      ensures State() == old(State()).(body := body)
    {
      this.body := body;
    }

    method SetMethodId(methodId: Option<string>)
      modifies this
      ensures State() == old(State()).(methodId := methodId)
    {
      this.methodId := methodId;
    }

    method SetHttpStatusCode(httpStatusCode: Option<int>)
      modifies this
      ensures State() == old(State()).(httpStatusCode := httpStatusCode)
    {
      this.httpStatusCode := httpStatusCode;
    }

    method SetStatus(status: Option<RestMockResponseStatus>)
      modifies this
      ensures State() == old(State()).(status := status)
    {
      this.status := status;
    }

    method SetUsingExpressions(usingExpressions: Option<bool>)
      modifies this
      ensures State() == old(State()).(usingExpressions := usingExpressions)
    {
      this.usingExpressions := usingExpressions;
    }

    method SetHttpHeaders(httpHeaders: Option<seq<HttpHeader>>)
      modifies this
      ensures State() == old(State()).(httpHeaders := httpHeaders)
    {
      this.httpHeaders := httpHeaders;
    }

    method SetContentEncodings(contentEncodings: Option<seq<HttpContentEncoding>>)
      modifies this
      ensures State() == old(State()).(contentEncodings := contentEncodings)
    {
      this.contentEncodings := contentEncodings;
    }

    method SetParameterQueries(parameterQueries: Option<seq<RestParameterQuery>>)
      modifies this
      ensures State() == old(State()).(parameterQueries := parameterQueries)
    {
      this.parameterQueries := parameterQueries;
    }

    method SetXpathExpressions(xpathExpressions: Option<seq<RestXPathExpression>>)
      modifies this
      ensures State() == old(State()).(xpathExpressions := xpathExpressions)
    {
      this.xpathExpressions := xpathExpressions;
    }

    method SetJsonPathExpressions(jsonPathExpressions: Option<seq<RestJsonPathExpression>>)
      modifies this
      ensures State() == old(State()).(jsonPathExpressions := jsonPathExpressions)
    {
      this.jsonPathExpressions := jsonPathExpressions;
    }

    method SetHeaderQueries(headerQueries: Option<seq<RestHeaderQuery>>)
      modifies this
      ensures State() == old(State()).(headerQueries := headerQueries)
    {
      this.headerQueries := headerQueries;
    }

    /** `Builder.build()`. */
    function Build(): Result<RestMockResponse, BuildError>
      reads this
    {
      Make(State())
    }
  }

  /** `r.toBuilder().build()`, run through the builder object: it never throws
      and yields a response equal to `r`. */
  method ToBuilderThenBuild(r: RestMockResponse) returns (out: Result<RestMockResponse, BuildError>)
    ensures out == Success(r)
  {
    var b := r.ToBuilder();
    out := b.Build();
    RoundTrip(r);
  }
}
