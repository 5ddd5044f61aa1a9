/** What a SOAP strategy works with: the upstream response, the follow-up
    commands it asks its caller to carry out, its result, and the two
    collaborators it may consult. */
module SoapStrategy {
  import opened Wrappers
  import opened ExternalTypes

  /** `SoapResponse`: a response from the real upstream service. Only its HTTP
      status code drives a decision; the body is carried along unchanged. */
  datatype SoapResponse = SoapResponse(body: string, httpStatusCode: int)

  /** A follow-up command (`Input`) for the caller to run after answering:
      either record an upstream response as a new mock response of the
      operation, or set the operation's status. Nothing here runs them. */
  datatype PostServiceRequest =
    | CreateSoapMockResponse(response: SoapResponse, projectId: string, portId: string, operation: SoapOperation)
    | UpdateSoapOperationsStatus(projectId: string, portId: string, operationId: string, operationStatus: SoapOperationStatus)

  /** `SoapStrategyResult`: the response to send back, if any, and the follow-ups. */
  datatype SoapStrategyResult = SoapStrategyResult(response: Option<SoapResponse>, postServiceRequests: seq<PostServiceRequest>)

  /** The two collaborators a strategy may consult: `SoapClient.getResponse`
      (forward the request upstream) and `SoapMockStrategyResultFactory.getResponse`
      (answer from the operation's own mock responses). */
  datatype Collaborator = SoapClient | ResultFactory

  /** A strategy's outcome: its result, and the collaborators it consulted, in order. */
  datatype Processed = Processed(result: SoapStrategyResult, consulted: seq<Collaborator>)
}
