/** `MockSoapStrategy`: the MOCKED mode of a SOAP operation. Answer from the
    operation's own mock responses; only when they give no response, and the
    operation forwards automatically to a configured endpoint, forward upstream. */
module MockSoapStrategy {
  import opened Wrappers
  import opened ExternalTypes
  import opened SoapStrategy

  /** `process`. The collaborators are given by the answer each would return:
      `factoryAnswer` from the mock-response factory, `upstream` from the SOAP
      client; `consulted` records which of them the strategy asked. */
  function Process(operation: SoapOperation, factoryAnswer: SoapStrategyResult, upstream: Option<SoapResponse>)
    : (o: Processed)
    // the local factory is always asked first
    ensures |o.consulted| >= 1 && o.consulted[0] == ResultFactory
    // the client is asked, once, exactly when the factory gave no response and the
    // operation forwards automatically (an absent flag counts as false) to an endpoint
    ensures SoapClient in o.consulted <==>
      factoryAnswer.response.None? && operation.automaticForward == Some(true) && operation.forwardedEndpoint.Some?
    ensures o.consulted == [ResultFactory] || o.consulted == [ResultFactory, SoapClient]
    // a factory answer with a response is returned unchanged
    ensures factoryAnswer.response.Some? ==> o.result == factoryAnswer
    // when forwarding, the upstream response (possibly none) is the response, with no follow-ups
    ensures SoapClient in o.consulted ==> o.result == SoapStrategyResult(upstream, [])
    // otherwise the factory's (empty) answer is returned unchanged
    ensures SoapClient !in o.consulted ==> o.result == factoryAnswer
    // the strategy adds no follow-up of its own, so it never changes the operation's status
    ensures forall r :: r in o.result.postServiceRequests ==> r in factoryAnswer.postServiceRequests
  {
    if factoryAnswer.response.None? && operation.automaticForward.GetOr(false) && operation.forwardedEndpoint.Some? then
      Processed(SoapStrategyResult(upstream, []), [ResultFactory, SoapClient])
    else
      Processed(factoryAnswer, [ResultFactory])
  }
}
