/** `RecordOnceSoapStrategy`: the RECORD_ONCE mode of a SOAP operation. Forward
    the request upstream; record the answer as a new mock response and switch
    the operation to MOCKED, unless the upstream failed and the operation
    prefers its own mock responses on failure. */
module RecordOnceSoapStrategy {
  import opened Wrappers
  import opened ExternalTypes
  import opened SoapStrategy

  /** `ERROR_CODE`: an upstream status at or above this is a failure. */
  const ErrorCode := 500

  /** `process`. The collaborators are given by the answer each would return:
      `upstream` from the SOAP client, `factoryAnswer` from the mock-response
      factory; `consulted` records which of them the strategy asked, in order.
      The follow-ups are collected in a list that grows in place, as in the source. */
  method Process(projectId: string, portId: string, operation: SoapOperation,
                 upstream: Option<SoapResponse>, factoryAnswer: SoapStrategyResult)
    returns (result: SoapStrategyResult, consulted: seq<Collaborator>)
    // the client is asked first, and exactly once; the factory at most once, after it
    ensures consulted == [SoapClient] || consulted == [SoapClient, ResultFactory]
    // the factory is asked exactly when the upstream answered with a status of 500
    // or more and the operation mocks on failure (an absent flag counts as false)
    ensures ResultFactory in consulted <==>
      upstream.Some? && upstream.value.httpStatusCode >= ErrorCode && operation.mockOnFailure == Some(true)
    // ... and then its answer is the result, unchanged
    ensures ResultFactory in consulted ==> result == factoryAnswer
    // otherwise the upstream response is passed on unchanged
    ensures ResultFactory !in consulted ==> result.response == upstream
    // no upstream response: no follow-ups
    ensures upstream.None? ==> result == SoapStrategyResult(None, [])
    // an upstream response not handed to the factory is recorded, then the
    // operation that was asked about is switched to MOCKED
    ensures upstream.Some? && ResultFactory !in consulted ==>
      result.postServiceRequests ==
        [CreateSoapMockResponse(upstream.value, projectId, portId, operation),
         UpdateSoapOperationsStatus(projectId, portId, operation.id, SoapOperationStatus.Mocked)]
  {
    consulted := [SoapClient];
    var optionalResponse := upstream;
    var postServiceRequests: seq<PostServiceRequest> := [];

    if optionalResponse.Some? {
      var response := optionalResponse.value;
      if response.httpStatusCode >= ErrorCode && operation.mockOnFailure.GetOr(false) {
        consulted := consulted + [ResultFactory];
        return factoryAnswer, consulted;
      } else {
        postServiceRequests := postServiceRequests + [CreateSoapMockResponse(response, projectId, portId, operation)];
        postServiceRequests := postServiceRequests +
          [UpdateSoapOperationsStatus(projectId, portId, operation.id, SoapOperationStatus.Mocked)];
      }
    }

    result := SoapStrategyResult(optionalResponse, postServiceRequests);
  }

  /** The failure threshold is inclusive: with mock-on-failure set, an upstream
      status of exactly 500 goes to the factory, while 499 is recorded and
      switches the operation to MOCKED. */
  method FailureThresholdIsInclusive(projectId: string, portId: string, operationId: string,
                                     body: string, factoryAnswer: SoapStrategyResult)
    returns (at500: SoapStrategyResult, at499: SoapStrategyResult)
    ensures at500 == factoryAnswer
    ensures at499.response == Some(SoapResponse(body, 499))
    ensures |at499.postServiceRequests| == 2
    ensures at499.postServiceRequests[0] ==
      CreateSoapMockResponse(SoapResponse(body, 499), projectId, portId, SoapOperation(operationId, Some(true), None, None))
    ensures at499.postServiceRequests[1] == UpdateSoapOperationsStatus(projectId, portId, operationId, SoapOperationStatus.Mocked)
  {
    var operation := SoapOperation(operationId, Some(true), None, None);
    var consulted;
    at500, consulted := Process(projectId, portId, operation, Some(SoapResponse(body, 500)), factoryAnswer);
    at499, consulted := Process(projectId, portId, operation, Some(SoapResponse(body, 499)), factoryAnswer);
  }

  /** An operation whose mock-on-failure flag is absent records even a failed
      upstream response, and is switched to MOCKED; the factory is not asked. */
  method AbsentMockOnFailureRecords(projectId: string, portId: string, operationId: string,
                                    response: SoapResponse, factoryAnswer: SoapStrategyResult)
    returns (result: SoapStrategyResult, consulted: seq<Collaborator>)
    requires response.httpStatusCode >= ErrorCode
    ensures consulted == [SoapClient]
    ensures result.response == Some(response)
    ensures |result.postServiceRequests| == 2
    ensures result.postServiceRequests[0] ==
      CreateSoapMockResponse(response, projectId, portId, SoapOperation(operationId, None, None, None))
    ensures result.postServiceRequests[1] == UpdateSoapOperationsStatus(projectId, portId, operationId, SoapOperationStatus.Mocked)
  {
    var operation := SoapOperation(operationId, None, None, None);
    result, consulted := Process(projectId, portId, operation, Some(response), factoryAnswer);
  }
}
