/** Stand-ins for the classes the modelled code refers to but whose source is
    not part of this model. Each is carried, copied and compared as an opaque
    value: its own builder, `equals` and `hashCode` are not modelled, so copying
    one yields the same value and comparing two is value equality. */
module ExternalTypes {
  import opened Wrappers

  /** `HttpHeader`: a response header, kept opaque. */
  datatype HttpHeader = HttpHeader(name: string, value: string)

  /** `HttpContentEncoding`: one content encoding to apply to a body, by name. */
  datatype HttpContentEncoding = HttpContentEncoding(name: string)

  /** `RestJsonPathExpression`: a JSON-path match condition, kept opaque. */
  datatype RestJsonPathExpression = RestJsonPathExpression(expression: string)

  /** `RestHeaderQuery`: a header match condition, kept opaque. */
  datatype RestHeaderQuery = RestHeaderQuery(header: string, query: string)

  /** `SoapXPathExpression`: an XPath match condition of a SOAP response, kept opaque. */
  datatype SoapXPathExpression = SoapXPathExpression(expression: string)

  /** `RestResource`: a resource of a REST application, kept opaque. */
  datatype RestResource = RestResource(id: string, name: string)

  /** `RestMockResponseStatus`: whether a REST candidate response may be chosen. */
  datatype RestMockResponseStatus = Enabled | Disabled

  /** The per-operation modes, used as keys of a port's or application's status count. */
  datatype SoapOperationStatus = Mocked | Disabled | Forwarded | Recording | RecordOnce
  datatype RestMethodStatus = Mocked | Disabled | Forwarded | Recording | RecordOnce

  /** `SoapOperation`, reduced to what the strategies read from it: its id, the
      `mockOnFailure` and `automaticForward` flags (Java `Optional<Boolean>`, so
      possibly absent) and the optional forwarded endpoint. */
  datatype SoapOperation = SoapOperation(
    id: string,
    mockOnFailure: Option<bool>,
    automaticForward: Option<bool>,
    forwardedEndpoint: Option<string>)
}
