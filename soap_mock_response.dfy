/** `SoapMockResponse`: one canned response of a SOAP operation. An immutable
    value built through a mutable `Builder`. */
module SoapMockResponses {
  import opened Wrappers
  import opened JavaObjects
  import opened ExternalTypes

  /** `SoapMockResponseStatus`: whether this candidate response may be chosen. */
  datatype SoapMockResponseStatus = Enabled | Disabled

  /** A built response. Unlike a REST response the body is required;
      `usingExpressions` may be absent; the lists never are. The getters are the
      fields themselves: `getUsingExpressions` returns this `Option`, and the list
      getters' defensive copies are the same sequence. */
  datatype SoapMockResponse = SoapMockResponse(
    id: string,
    name: string,
    body: string,
    operationId: string,
    status: SoapMockResponseStatus,
    httpStatusCode: int,
    usingExpressions: Option<bool>,
    httpHeaders: seq<HttpHeader>,
    contentEncodings: seq<HttpContentEncoding>,
    xpathExpressions: seq<SoapXPathExpression>)
  {
    /** `equals`: all ten fields agree. */
    predicate Equals(that: SoapMockResponse)
    {
      && usingExpressions == that.usingExpressions
      && id == that.id
      && name == that.name
      && body == that.body
      && operationId == that.operationId
      && status == that.status
      && httpStatusCode == that.httpStatusCode
      && httpHeaders == that.httpHeaders
      && contentEncodings == that.contentEncodings
      && xpathExpressions == that.xpathExpressions
    }

    /** What `toBuilder()` puts in the fresh builder: a copy of every field. */
    function ToBuilderFields(): Fields
    {
      Fields(Some(id), Some(name), Some(body), Some(operationId), Some(status), Some(httpStatusCode),
             usingExpressions, Some(httpHeaders), Some(contentEncodings), Some(xpathExpressions))
    }

    /** `toBuilder()`: a fresh builder holding a copy of every field. */
    method ToBuilder() returns (b: Builder)
      ensures fresh(b) && b.State() == ToBuilderFields()
    {
      b := new Builder();
      b.SetId(Some(id));
      b.SetName(Some(name));
      b.SetBody(Some(body));
      b.SetOperationId(Some(operationId));
      b.SetStatus(Some(status));
      b.SetHttpStatusCode(Some(httpStatusCode));
      b.SetUsingExpressions(usingExpressions);
      b.SetHttpHeaders(Some(httpHeaders));
      b.SetContentEncodings(Some(contentEncodings));
      b.SetXpathExpressions(Some(xpathExpressions));
    }
  }

  /** The state of a `Builder`: every field may still be `null`. */
  datatype Fields = Fields(
    id: Option<string>,
    name: Option<string>,
    body: Option<string>,
    operationId: Option<string>,
    status: Option<SoapMockResponseStatus>,
    httpStatusCode: Option<int>,
    usingExpressions: Option<bool>,
    httpHeaders: Option<seq<HttpHeader>>,
    contentEncodings: Option<seq<HttpContentEncoding>>,
    xpathExpressions: Option<seq<SoapXPathExpression>>)

  /** The private constructor `SoapMockResponse(Builder)`: id, name, body,
      operationId, status and httpStatusCode are required and checked in that
      order; usingExpressions is kept as given; an unset list becomes empty. */
  function Make(f: Fields): (r: Result<SoapMockResponse, BuildError>)
    ensures r.Success? <==>
      f.id.Some? && f.name.Some? && f.body.Some? && f.operationId.Some? && f.status.Some? && f.httpStatusCode.Some?
    ensures r.Success? ==>
      && r.value.id == f.id.value
      && r.value.name == f.name.value
      && r.value.body == f.body.value
      && r.value.operationId == f.operationId.value
      && r.value.status == f.status.value
      && r.value.httpStatusCode == f.httpStatusCode.value
      && r.value.usingExpressions == f.usingExpressions
      && r.value.httpHeaders == f.httpHeaders.GetOr([])
      && r.value.contentEncodings == f.contentEncodings.GetOr([])
      && r.value.xpathExpressions == f.xpathExpressions.GetOr([])
    ensures f.id.None? ==> r == Failure(NullPointer(Some("id")))
    ensures f.id.Some? && f.name.None? ==> r == Failure(NullPointer(Some("name")))
    ensures f.id.Some? && f.name.Some? && f.body.None? ==> r == Failure(NullPointer(Some("body")))
    ensures f.id.Some? && f.name.Some? && f.body.Some? && f.operationId.None? ==>
      r == Failure(NullPointer(Some("operationId")))
    ensures f.id.Some? && f.name.Some? && f.body.Some? && f.operationId.Some? && f.status.None? ==>
      r == Failure(NullPointer(Some("status")))
    ensures f.id.Some? && f.name.Some? && f.body.Some? && f.operationId.Some? && f.status.Some? && f.httpStatusCode.None? ==>
      r == Failure(NullPointer(Some("httpStatusCode")))
  {
    var id :- RequireNonNull(f.id, "id");
    var name :- RequireNonNull(f.name, "name");
    var body :- RequireNonNull(f.body, "body");
    var operationId :- RequireNonNull(f.operationId, "operationId");
    var status :- RequireNonNull(f.status, "status");
    var httpStatusCode :- RequireNonNull(f.httpStatusCode, "httpStatusCode");
    Success(SoapMockResponse(id, name, body, operationId, status, httpStatusCode, f.usingExpressions,
                             f.httpHeaders.GetOr([]), f.contentEncodings.GetOr([]), f.xpathExpressions.GetOr([])))
  }

  /** `toBuilder().build()` gives back an equal response. */
  lemma RoundTrip(r: SoapMockResponse)
    ensures Make(r.ToBuilderFields()) == Success(r)
  {
  }

  /** `equals` holds exactly when all ten fields are the same value; since
      `hashCode` is `Objects.hash` of those same ten fields, equal responses hash alike. */
  lemma EqualsIsValueEquality(a: SoapMockResponse, b: SoapMockResponse)
    ensures a.Equals(b) <==> a == b
  {
  }

  /** A builder: every setter overwrites its own field and touches nothing else. */
  class Builder {
    var id: Option<string>
    var name: Option<string>
    var body: Option<string>
    var operationId: Option<string>
    var status: Option<SoapMockResponseStatus>
    var httpStatusCode: Option<int>
    var usingExpressions: Option<bool>
    var httpHeaders: Option<seq<HttpHeader>>
    var contentEncodings: Option<seq<HttpContentEncoding>>
    var xpathExpressions: Option<seq<SoapXPathExpression>>

    /** The builder's fields as one value. */
    function State(): Fields
      reads this
    {
      Fields(id, name, body, operationId, status, httpStatusCode, usingExpressions,
             httpHeaders, contentEncodings, xpathExpressions)
    }

    /** `SoapMockResponse.builder()`: nothing set yet. */
    constructor ()
      ensures State() == Fields(None, None, None, None, None, None, None, None, None, None)
    {
      id, name, body, operationId, status, httpStatusCode := None, None, None, None, None, None;
      usingExpressions, httpHeaders, contentEncodings, xpathExpressions := None, None, None, None;
    }

    method SetId(id: Option<string>)
      modifies this
      ensures State() == old(State()).(id := id)
    {
      this.id := id;
    }

    method SetName(name: Option<string>)
      modifies this
      ensures State() == old(State()).(name := name)
    {
      this.name := name;
    }

    method SetBody(body: Option<string>)
      modifies this
      ensures State() == old(State()).(body := body)
    {
      this.body := body;
    }

    method SetOperationId(operationId: Option<string>)
      modifies this
      ensures State() == old(State()).(operationId := operationId)
    {
      this.operationId := operationId;
    }

    method SetStatus(status: Option<SoapMockResponseStatus>)
      modifies this
      ensures State() == old(State()).(status := status)
    {
      this.status := status;
    }

    method SetHttpStatusCode(httpStatusCode: Option<int>)
      modifies this
      ensures State() == old(State()).(httpStatusCode := httpStatusCode)
    {
      this.httpStatusCode := httpStatusCode;
    }

    method SetUsingExpressions(usingExpressions: Option<bool>)
      modifies this
      ensures State() == old(State()).(usingExpressions := usingExpressions)
    {
      this.usingExpressions := usingExpressions;
    }

    method SetHttpHeaders(httpHeaders: Option<seq<HttpHeader>>)
      modifies this
      ensures State() == old(State()).(httpHeaders := httpHeaders)
    {
      this.httpHeaders := httpHeaders;
    }

    method SetContentEncodings(contentEncodings: Option<seq<HttpContentEncoding>>)
      modifies this
      ensures State() == old(State()).(contentEncodings := contentEncodings)
    {
      this.contentEncodings := contentEncodings;
    }

    method SetXpathExpressions(xpathExpressions: Option<seq<SoapXPathExpression>>)
      modifies this
      ensures State() == old(State()).(xpathExpressions := xpathExpressions)
    {
      this.xpathExpressions := xpathExpressions;
    }

    /** `Builder.build()`. */
    function Build(): Result<SoapMockResponse, BuildError>
      reads this
    {
      Make(State())
    }
  }

  /** `r.toBuilder().build()`, run through the builder object: it never throws
      and yields a response equal to `r`. */
  method ToBuilderThenBuild(r: SoapMockResponse) returns (out: Result<SoapMockResponse, BuildError>)
    ensures out == Success(r)
  {
    var b := r.ToBuilder();
    out := b.Build();
    RoundTrip(r);
  }
}
