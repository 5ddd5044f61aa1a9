# Castle Mock: SOAP mode decisions and mock-domain values, in Dafny

Castle Mock stands in for real SOAP and REST services. For each incoming request it answers
from a stored mock response, forwards the call to the real service, or forwards it and
records the answer for later reuse. This project models two parts of it and proves
properties of the model.

1. **The SOAP strategies of two operation modes.**
   - `MockSoapStrategy` is the MOCKED mode. It asks the operation's mock-response factory
     first. Only when that gives no response, and the operation forwards automatically to a
     configured endpoint, does it forward upstream.
   - `RecordOnceSoapStrategy` is the RECORD_ONCE mode. It always forwards first. A failed
     upstream call (status 500 or more) on an operation that mocks on failure is handed to
     the factory. Any other upstream response is passed on, with two follow-up commands:
     record the response as a new mock response, then set the operation to MOCKED.

   The two collaborators are the SOAP client (`SoapClient.getResponse`) and the mock-response
   factory (`SoapMockStrategyResultFactory.getResponse`). The model takes, as inputs, the
   answer each of them would give. Each strategy also reports which collaborators it
   consulted, in order. That is how "the factory is not asked" and "the client is asked
   exactly once, first" are stated. Follow-up commands are plain values; nothing runs them.
   `MockSoapStrategy` is a function, since its source only branches and returns values.
   `RecordOnceSoapStrategy.Process` is a method that builds its follow-up list step by step,
   as the source does.

2. **The mock-domain values and their builders.** These are `RestMockResponse`,
   `SoapMockResponse`, `RestParameterQuery`, `RestXPathExpression`,
   `SoapOperationIdentifier`, `SoapPort` and `RestApplication`. Each is modelled as:
   - a datatype for the built value;
   - a `Fields` datatype for what a builder holds (every field may be null, written `None`);
   - `Make`, the private constructor that checks required fields in source order and fails
     fast with the `NullPointerException` of `Objects.requireNonNull`, modelled as a `Result`.
     `SoapPort` has no `Make`: its private constructor is the `Builder.Build` method, since
     it allocates the empty collections that replace null ones;
   - a `Builder` class whose setters update its fields in place;
   - `ToBuilder`, which allocates a builder filled from a value (every type except
     `SoapOperationIdentifier`, which has no `toBuilder()`);
   - `Equals`, the field-wise `equals`.

   The lemmas prove several properties. `toBuilder().build()` gives back the value.
   For the six types other than `SoapPort`, `equals` coincides with value equality;
   `SoapPort`'s `equals` compares its collections by contents, so two distinct ports
   can be equal. For the three types whose fields are all
   modelled, `hashCode` agrees with `equals`. An unset list or map defaults to empty.
   `SoapPort` is the one type that shares its collections. Its operations list and
   status-count map are objects: its getters return them as they are, and `toBuilder()`
   passes them on. So the model proves that a rebuilt port holds the very same objects, and
   that an operation added through one port is seen by the other. `RestApplication` and the
   two response types hand out copies from their getters and `toBuilder()`, and are modelled
   as plain values (sequences and maps). Their private constructors still keep the list or map
   handed to the builder itself, which this model does not capture (see "Left out").

Two behaviours of the code worth noting:
- In RECORD_ONCE mode, an upstream call that returns nothing never falls back to the
  factory. It yields no response and no follow-ups. Only a returned response with status
  500 or more can fall back (`RecordOnceSoapStrategy.java:53-57`).
- In MOCKED mode with no local response and no automatic forward, the factory's own result
  is returned unchanged, with whatever follow-ups it carries. It is not replaced by a bare
  "no response" (`MockSoapStrategy.java:56`).

## Model

| member | source | states |
|---|---|---|
| MockSoapStrategy.Process | web/web-mock/web-mock-soap/src/main/java/com/castlemock/web/mock/soap/stategy/MockSoapStrategy.java:41-57 | The factory is asked first. The client is asked, once, exactly when the factory gave no response, automatic forward is true (absent counts as false) and an endpoint is configured. A factory answer with a response comes back unchanged. A forward answers with the upstream response, possibly none, and no follow-ups. Otherwise the factory answer comes back unchanged. No follow-up is added beyond the factory's own. |
| RecordOnceSoapStrategy.Process | web/web-mock/web-mock-soap/src/main/java/com/castlemock/web/mock/soap/stategy/RecordOnceSoapStrategy.java:47-74 | The client is asked first and exactly once. The factory is asked exactly when the upstream status is at least 500 and mock-on-failure is true (absent counts as false), and its answer is then the result unchanged. Otherwise the upstream response is passed on: none gives no follow-ups, and a response gives exactly [create mock response from it, set this project/port/operation to MOCKED]. |
| RecordOnceSoapStrategy.FailureThresholdIsInclusive | web/web-mock/web-mock-soap/src/main/java/com/castlemock/web/mock/soap/stategy/RecordOnceSoapStrategy.java:37-66 | With mock-on-failure set, status 500 goes to the factory while 499 is recorded and switches the operation to MOCKED. |
| RecordOnceSoapStrategy.AbsentMockOnFailureRecords | web/web-mock/web-mock-soap/src/main/java/com/castlemock/web/mock/soap/stategy/RecordOnceSoapStrategy.java:55-66 | With the mock-on-failure flag absent, a failed (>= 500) upstream response is still recorded and the operation is switched to MOCKED; the factory is not asked. |
| JavaObjects.RequireNonNull | model/model-mock/model-mock-rest/src/main/java/com/castlemock/model/mock/rest/domain/RestMockResponse.java:89-93 | `Objects.requireNonNull(x, name)` succeeds with x exactly when x is set, and otherwise fails with an exception naming the field. |
| JavaObjects.RequireNonNullUnnamed | model/model-mock/model-mock-soap/src/main/java/com/castlemock/model/mock/soap/domain/SoapPort.java:67-70 | `Objects.requireNonNull(x)` succeeds with x exactly when x is set, and otherwise fails with an exception without a message. |
| JavaObjects.ListEqualsIsValueEquality | model/model-mock/model-mock-rest/src/main/java/com/castlemock/model/mock/rest/domain/RestMockResponse.java:182-183 | When the element `equals` is value equality, element-wise `List.equals` holds exactly when the lists are equal. |
| RestXPathExpressions.Make | model/model-mock/model-mock-rest/src/main/java/com/castlemock/model/mock/rest/domain/RestXPathExpression.java:37-39 | Building succeeds exactly when the expression is set, and `getExpression` then returns it; otherwise it fails naming "expression". |
| RestXPathExpressions.RoundTrip | model/model-mock/model-mock-rest/src/main/java/com/castlemock/model/mock/rest/domain/RestXPathExpression.java:65-68 | `toBuilder().build()` succeeds and gives back the same expression. |
| JavaObjects.StreamMap | model/model-mock/model-mock-rest/src/main/java/com/castlemock/model/mock/rest/domain/RestMockResponse.java:232-244 | `stream().map(f).collect(toList())` yields a list of the same length whose i-th element is f applied to the i-th input element. |
| JavaObjects.StreamMapOfIdentity | model/model-mock/model-mock-rest/src/main/java/com/castlemock/model/mock/rest/domain/RestMockResponse.java:232-244 | Copying each element of a list through a map that gives back its argument (such as `toBuilder().build()`) yields the same list, in the same order. |
| RestXPathExpressions.EqualsIsValueEquality | model/model-mock/model-mock-rest/src/main/java/com/castlemock/model/mock/rest/domain/RestXPathExpression.java:45-56 | `equals` holds exactly when the expression strings are equal, and equal expressions have equal `hashCode`s. |
| RestXPathExpressions.RestXPathExpression.ToBuilder | model/model-mock/model-mock-rest/src/main/java/com/castlemock/model/mock/rest/domain/RestXPathExpression.java:65-68 | `toBuilder()` returns a fresh builder holding this expression. |
| RestXPathExpressions.Builder.constructor | model/model-mock/model-mock-rest/src/main/java/com/castlemock/model/mock/rest/domain/RestXPathExpression.java:70-79 | A new builder has nothing set. |
| RestXPathExpressions.Builder.SetExpression | model/model-mock/model-mock-rest/src/main/java/com/castlemock/model/mock/rest/domain/RestXPathExpression.java:81-84 | Sets the expression, overwriting an earlier value, and changes nothing else. |
| RestXPathExpressions.ToBuilderThenBuild | model/model-mock/model-mock-rest/src/main/java/com/castlemock/model/mock/rest/domain/RestXPathExpression.java:65-88 | Running `toBuilder()` and then `build()` on the builder object never throws and yields the same expression. |
| RestParameterQueries.Make | model/model-mock/model-mock-rest/src/main/java/com/castlemock/model/mock/rest/domain/RestParameterQuery.java:51-58 | Building succeeds exactly when all six fields are set, and the getters then return exactly the given values. Otherwise it fails naming the first missing field, in the order parameter, query, matchCase, matchAny, matchRegex, urlEncoded. |
| RestParameterQueries.RoundTrip | model/model-mock/model-mock-rest/src/main/java/com/castlemock/model/mock/rest/domain/RestParameterQuery.java:109-117 | `toBuilder().build()` succeeds and gives back the same query. |
| RestParameterQueries.EqualsIsValueEquality | model/model-mock/model-mock-rest/src/main/java/com/castlemock/model/mock/rest/domain/RestParameterQuery.java:84-95 | `equals` holds exactly when all six fields are equal, and equal queries have equal `hashCode`s. |
| RestParameterQueries.RestParameterQuery.ToBuilder | model/model-mock/model-mock-rest/src/main/java/com/castlemock/model/mock/rest/domain/RestParameterQuery.java:109-117 | `toBuilder()` returns a fresh builder holding all six fields. |
| RestParameterQueries.Builder.constructor | model/model-mock/model-mock-rest/src/main/java/com/castlemock/model/mock/rest/domain/RestParameterQuery.java:119-133 | A new builder has nothing set. |
| RestParameterQueries.Builder.SetParameter | model/model-mock/model-mock-rest/src/main/java/com/castlemock/model/mock/rest/domain/RestParameterQuery.java:135-138 | Sets its own field, overwriting an earlier value, and changes no other field. |
| RestParameterQueries.Builder.SetQuery | model/model-mock/model-mock-rest/src/main/java/com/castlemock/model/mock/rest/domain/RestParameterQuery.java:140-143 | Sets its own field, overwriting an earlier value, and changes no other field. |
| RestParameterQueries.Builder.SetMatchCase | model/model-mock/model-mock-rest/src/main/java/com/castlemock/model/mock/rest/domain/RestParameterQuery.java:145-148 | Sets its own field, overwriting an earlier value, and changes no other field. |
| RestParameterQueries.Builder.SetMatchAny | model/model-mock/model-mock-rest/src/main/java/com/castlemock/model/mock/rest/domain/RestParameterQuery.java:150-153 | Sets its own field, overwriting an earlier value, and changes no other field. |
| RestParameterQueries.Builder.SetMatchRegex | model/model-mock/model-mock-rest/src/main/java/com/castlemock/model/mock/rest/domain/RestParameterQuery.java:155-158 | Sets its own field, overwriting an earlier value, and changes no other field. |
| RestParameterQueries.Builder.SetUrlEncoded | model/model-mock/model-mock-rest/src/main/java/com/castlemock/model/mock/rest/domain/RestParameterQuery.java:160-163 | Sets its own field, overwriting an earlier value, and changes no other field. |
| RestParameterQueries.ToBuilderThenBuild | model/model-mock/model-mock-rest/src/main/java/com/castlemock/model/mock/rest/domain/RestParameterQuery.java:109-167 | Running `toBuilder()` and then `build()` on the builder object never throws and yields the same query. |
| RestMockResponses.Make | model/model-mock/model-mock-rest/src/main/java/com/castlemock/model/mock/rest/domain/RestMockResponse.java:88-102 | Building succeeds exactly when id, status, name, methodId and httpStatusCode are set; otherwise it fails naming the first missing one, in that order. A built response holds the given values. body and usingExpressions are absent exactly when they were not set. Each unset list becomes empty. |
| RestMockResponses.RoundTrip | model/model-mock/model-mock-rest/src/main/java/com/castlemock/model/mock/rest/domain/RestMockResponse.java:214-259 | `toBuilder().build()` succeeds and gives back the same response, even though each parameter query and XPath expression is rebuilt through its own builder. Lists hold no null element in this model (see "Left out"). |
| RestMockResponses.EqualsIsValueEquality | model/model-mock/model-mock-rest/src/main/java/com/castlemock/model/mock/rest/domain/RestMockResponse.java:168-186 | `equals` holds exactly when all thirteen fields are equal; the condition lists are compared element by element with their own `equals`. |
| RestMockResponses.RestMockResponse.ToBuilder | model/model-mock/model-mock-rest/src/main/java/com/castlemock/model/mock/rest/domain/RestMockResponse.java:214-259 | `toBuilder()` returns a fresh builder holding every field, with the conditions rebuilt. |
| RestMockResponses.Builder.constructor | model/model-mock/model-mock-rest/src/main/java/com/castlemock/model/mock/rest/domain/RestMockResponse.java:262-283 | A new builder has nothing set. |
| RestMockResponses.Builder.SetId | model/model-mock/model-mock-rest/src/main/java/com/castlemock/model/mock/rest/domain/RestMockResponse.java:285-288 | Sets its own field, overwriting an earlier value, and changes no other field. |
| RestMockResponses.Builder.SetName | model/model-mock/model-mock-rest/src/main/java/com/castlemock/model/mock/rest/domain/RestMockResponse.java:290-293 | Sets its own field, overwriting an earlier value, and changes no other field. |
| RestMockResponses.Builder.SetBody | model/model-mock/model-mock-rest/src/main/java/com/castlemock/model/mock/rest/domain/RestMockResponse.java:295-298 | Sets its own field, overwriting an earlier value, and changes no other field. |
| RestMockResponses.Builder.SetMethodId | model/model-mock/model-mock-rest/src/main/java/com/castlemock/model/mock/rest/domain/RestMockResponse.java:300-303 | Sets its own field, overwriting an earlier value, and changes no other field. |
| RestMockResponses.Builder.SetHttpStatusCode | model/model-mock/model-mock-rest/src/main/java/com/castlemock/model/mock/rest/domain/RestMockResponse.java:305-308 | Sets its own field, overwriting an earlier value, and changes no other field. |
| RestMockResponses.Builder.SetStatus | model/model-mock/model-mock-rest/src/main/java/com/castlemock/model/mock/rest/domain/RestMockResponse.java:310-313 | Sets its own field, overwriting an earlier value, and changes no other field. |
| RestMockResponses.Builder.SetUsingExpressions | model/model-mock/model-mock-rest/src/main/java/com/castlemock/model/mock/rest/domain/RestMockResponse.java:315-318 | Sets its own field, overwriting an earlier value, and changes no other field. |
| RestMockResponses.Builder.SetHttpHeaders | model/model-mock/model-mock-rest/src/main/java/com/castlemock/model/mock/rest/domain/RestMockResponse.java:320-323 | Sets its own field, overwriting an earlier value, and changes no other field. |
| RestMockResponses.Builder.SetContentEncodings | model/model-mock/model-mock-rest/src/main/java/com/castlemock/model/mock/rest/domain/RestMockResponse.java:325-328 | Sets its own field, overwriting an earlier value, and changes no other field. |
| RestMockResponses.Builder.SetParameterQueries | model/model-mock/model-mock-rest/src/main/java/com/castlemock/model/mock/rest/domain/RestMockResponse.java:330-333 | Sets its own field, overwriting an earlier value, and changes no other field. |
| RestMockResponses.Builder.SetXpathExpressions | model/model-mock/model-mock-rest/src/main/java/com/castlemock/model/mock/rest/domain/RestMockResponse.java:335-338 | Sets its own field, overwriting an earlier value, and changes no other field. |
| RestMockResponses.Builder.SetJsonPathExpressions | model/model-mock/model-mock-rest/src/main/java/com/castlemock/model/mock/rest/domain/RestMockResponse.java:340-343 | Sets its own field, overwriting an earlier value, and changes no other field. |
| RestMockResponses.Builder.SetHeaderQueries | model/model-mock/model-mock-rest/src/main/java/com/castlemock/model/mock/rest/domain/RestMockResponse.java:345-348 | Sets its own field, overwriting an earlier value, and changes no other field. |
| RestMockResponses.ToBuilderThenBuild | model/model-mock/model-mock-rest/src/main/java/com/castlemock/model/mock/rest/domain/RestMockResponse.java:214-259 | Running `toBuilder()` and then `build()` on the builder object never throws and yields the same response. Lists hold no null element in this model (see "Left out"). |
| SoapMockResponses.Make | model/model-mock/model-mock-soap/src/main/java/com/castlemock/model/mock/soap/domain/SoapMockResponse.java:73-84 | Building succeeds exactly when id, name, body, operationId, status and httpStatusCode are set; otherwise it fails naming the first missing one, in that order. body is required here. usingExpressions is kept as given, possibly absent. Each unset list becomes empty. |
| SoapMockResponses.RoundTrip | model/model-mock/model-mock-soap/src/main/java/com/castlemock/model/mock/soap/domain/SoapMockResponse.java:136-162 | `toBuilder().build()` succeeds and gives back the same response. Lists hold no null element in this model (see "Left out"). |
| SoapMockResponses.EqualsIsValueEquality | model/model-mock/model-mock-soap/src/main/java/com/castlemock/model/mock/soap/domain/SoapMockResponse.java:168-184 | `equals` holds exactly when all ten fields are equal. |
| SoapMockResponses.SoapMockResponse.ToBuilder | model/model-mock/model-mock-soap/src/main/java/com/castlemock/model/mock/soap/domain/SoapMockResponse.java:136-162 | `toBuilder()` returns a fresh builder holding every field. |
| SoapMockResponses.Builder.constructor | model/model-mock/model-mock-soap/src/main/java/com/castlemock/model/mock/soap/domain/SoapMockResponse.java:164-216 | A new builder has nothing set. |
| SoapMockResponses.Builder.SetId | model/model-mock/model-mock-soap/src/main/java/com/castlemock/model/mock/soap/domain/SoapMockResponse.java:218-221 | Sets its own field, overwriting an earlier value, and changes no other field. |
| SoapMockResponses.Builder.SetName | model/model-mock/model-mock-soap/src/main/java/com/castlemock/model/mock/soap/domain/SoapMockResponse.java:223-226 | Sets its own field, overwriting an earlier value, and changes no other field. |
| SoapMockResponses.Builder.SetBody | model/model-mock/model-mock-soap/src/main/java/com/castlemock/model/mock/soap/domain/SoapMockResponse.java:228-231 | Sets its own field, overwriting an earlier value, and changes no other field. |
| SoapMockResponses.Builder.SetOperationId | model/model-mock/model-mock-soap/src/main/java/com/castlemock/model/mock/soap/domain/SoapMockResponse.java:233-236 | Sets its own field, overwriting an earlier value, and changes no other field. |
| SoapMockResponses.Builder.SetStatus | model/model-mock/model-mock-soap/src/main/java/com/castlemock/model/mock/soap/domain/SoapMockResponse.java:238-241 | Sets its own field, overwriting an earlier value, and changes no other field. |
| SoapMockResponses.Builder.SetHttpStatusCode | model/model-mock/model-mock-soap/src/main/java/com/castlemock/model/mock/soap/domain/SoapMockResponse.java:243-246 | Sets its own field, overwriting an earlier value, and changes no other field. |
| SoapMockResponses.Builder.SetUsingExpressions | model/model-mock/model-mock-soap/src/main/java/com/castlemock/model/mock/soap/domain/SoapMockResponse.java:248-251 | Sets its own field, overwriting an earlier value, and changes no other field. |
| SoapMockResponses.Builder.SetHttpHeaders | model/model-mock/model-mock-soap/src/main/java/com/castlemock/model/mock/soap/domain/SoapMockResponse.java:253-256 | Sets its own field, overwriting an earlier value, and changes no other field. |
| SoapMockResponses.Builder.SetContentEncodings | model/model-mock/model-mock-soap/src/main/java/com/castlemock/model/mock/soap/domain/SoapMockResponse.java:258-261 | Sets its own field, overwriting an earlier value, and changes no other field. |
| SoapMockResponses.Builder.SetXpathExpressions | model/model-mock/model-mock-soap/src/main/java/com/castlemock/model/mock/soap/domain/SoapMockResponse.java:263-266 | Sets its own field, overwriting an earlier value, and changes no other field. |
| SoapMockResponses.ToBuilderThenBuild | model/model-mock/model-mock-soap/src/main/java/com/castlemock/model/mock/soap/domain/SoapMockResponse.java:136-162 | Running `toBuilder()` and then `build()` on the builder object never throws and yields the same response. Lists hold no null element in this model (see "Left out"). |
| SoapOperationIdentifiers.Make | model/model-mock/model-mock-soap/src/main/java/com/castlemock/model/mock/soap/domain/SoapOperationIdentifier.java:44-47 | Building succeeds exactly when the name is set; otherwise it fails naming "name". The namespace is kept as given. |
| SoapOperationIdentifiers.NamespaceAbsentIffUnset | model/model-mock/model-mock-soap/src/main/java/com/castlemock/model/mock/soap/domain/SoapOperationIdentifier.java:54-56 | `getNamespace()` is empty exactly when no namespace was given to the builder. |
| SoapOperationIdentifiers.EqualsIsValueEquality | model/model-mock/model-mock-soap/src/main/java/com/castlemock/model/mock/soap/domain/SoapOperationIdentifier.java:62-73 | `equals` holds exactly when both names and both namespaces are equal, and equal identifiers have equal `hashCode`s. |
| SoapOperationIdentifiers.AbsentNamespaceEqualsOnlyAbsent | model/model-mock/model-mock-soap/src/main/java/com/castlemock/model/mock/soap/domain/SoapOperationIdentifier.java:62-68 | An identifier without a namespace is never equal to one with a namespace, in either direction. |
| SoapOperationIdentifiers.Builder.constructor | model/model-mock/model-mock-soap/src/main/java/com/castlemock/model/mock/soap/domain/SoapOperationIdentifier.java:58-89 | A new builder has nothing set. |
| SoapOperationIdentifiers.Builder.SetName | model/model-mock/model-mock-soap/src/main/java/com/castlemock/model/mock/soap/domain/SoapOperationIdentifier.java:91-94 | Sets the name, overwriting an earlier value, and changes nothing else. |
| SoapOperationIdentifiers.Builder.SetNamespace | model/model-mock/model-mock-soap/src/main/java/com/castlemock/model/mock/soap/domain/SoapOperationIdentifier.java:96-99 | Sets the namespace, overwriting an earlier value, and changes nothing else. |
| SoapPorts.OperationList.constructor | model/model-mock/model-mock-soap/src/main/java/com/castlemock/model/mock/soap/domain/SoapPort.java:72-73 | A new operations list is empty. |
| SoapPorts.OperationList.Add | model/model-mock/model-mock-soap/src/main/java/com/castlemock/model/mock/soap/domain/SoapPort.java:84-86 | Adding to the list that `getOperations()` returns appends to the list the port stores. |
| SoapPorts.StatusCountMap.constructor | model/model-mock/model-mock-soap/src/main/java/com/castlemock/model/mock/soap/domain/SoapPort.java:74-75 | A new status-count map is empty. |
| SoapPorts.StatusCountMap.Put | model/model-mock/model-mock-soap/src/main/java/com/castlemock/model/mock/soap/domain/SoapPort.java:89-91 | Putting into the map that `getStatusCount()` returns updates the map the port stores. |
| SoapPorts.SoapPort.ToBuilder | model/model-mock/model-mock-soap/src/main/java/com/castlemock/model/mock/soap/domain/SoapPort.java:114-123 | `toBuilder()` returns a fresh builder holding every field, including the very same operations list and status-count map objects. |
| SoapPorts.Builder.constructor | model/model-mock/model-mock-soap/src/main/java/com/castlemock/model/mock/soap/domain/SoapPort.java:152-162 | A new builder has no scalar set but already holds a fresh empty operations list and a fresh empty status-count map. |
| SoapPorts.Builder.SetId | model/model-mock/model-mock-soap/src/main/java/com/castlemock/model/mock/soap/domain/SoapPort.java:164-167 | Sets its own field, overwriting an earlier value, and changes no other field. |
| SoapPorts.Builder.SetName | model/model-mock/model-mock-soap/src/main/java/com/castlemock/model/mock/soap/domain/SoapPort.java:169-172 | Sets its own field, overwriting an earlier value, and changes no other field. |
| SoapPorts.Builder.SetUri | model/model-mock/model-mock-soap/src/main/java/com/castlemock/model/mock/soap/domain/SoapPort.java:174-177 | Sets its own field, overwriting an earlier value, and changes no other field. |
| SoapPorts.Builder.SetProjectId | model/model-mock/model-mock-soap/src/main/java/com/castlemock/model/mock/soap/domain/SoapPort.java:179-182 | Sets its own field, overwriting an earlier value, and changes no other field. |
| SoapPorts.Builder.SetOperations | model/model-mock/model-mock-soap/src/main/java/com/castlemock/model/mock/soap/domain/SoapPort.java:184-187 | Sets its own field, overwriting an earlier value, and changes no other field. |
| SoapPorts.Builder.SetInvokeAddress | model/model-mock/model-mock-soap/src/main/java/com/castlemock/model/mock/soap/domain/SoapPort.java:189-192 | Sets its own field, overwriting an earlier value, and changes no other field. |
| SoapPorts.Builder.SetStatusCount | model/model-mock/model-mock-soap/src/main/java/com/castlemock/model/mock/soap/domain/SoapPort.java:194-197 | Sets its own field, overwriting an earlier value, and changes no other field. |
| SoapPorts.Builder.Build | model/model-mock/model-mock-soap/src/main/java/com/castlemock/model/mock/soap/domain/SoapPort.java:66-76 | Building succeeds exactly when id, name, uri and projectId are set, and otherwise fails with an exception without a message. invokeAddress is kept as given, possibly absent. A collection that was set is stored as that very object; one set to null is replaced by a fresh empty one. |
| SoapPorts.ToBuilderThenBuild | model/model-mock/model-mock-soap/src/main/java/com/castlemock/model/mock/soap/domain/SoapPort.java:114-131 | `toBuilder().build()` never throws. The result is the same port value holding the same collection objects, so it aliases rather than copies, and it is `equals` to the original. |
| SoapPorts.AddThroughRebuiltPort | model/model-mock/model-mock-soap/src/main/java/com/castlemock/model/mock/soap/domain/SoapPort.java:84-123 | An operation added through the operations list of a port rebuilt by `toBuilder().build()` appears in the original port. |
| SoapPorts.BuildWithNullCollections | model/model-mock/model-mock-soap/src/main/java/com/castlemock/model/mock/soap/domain/SoapPort.java:72-75 | Setting both collections explicitly to null still builds a port with fresh, empty collections. |
| SoapPorts.DistinctCollectionsWithSameContentsAreEqual | model/model-mock/model-mock-soap/src/main/java/com/castlemock/model/mock/soap/domain/SoapPort.java:125-131 | `equals` compares the operations list and status-count map by contents: two ports with equal fields are equal although their collections are different objects. |
| RestApplications.Make | model/model-mock/model-mock-rest/src/main/java/com/castlemock/model/mock/rest/domain/RestApplication.java:51-57 | Building succeeds exactly when id, name and projectId are set; otherwise it fails naming the first missing one, in that order. Unset resources become an empty list and an unset status count an empty map. |
| RestApplications.RoundTrip | model/model-mock/model-mock-rest/src/main/java/com/castlemock/model/mock/rest/domain/RestApplication.java:115-129 | `toBuilder().build()` succeeds and gives back the same application. Lists hold no null element in this model (see "Left out"). |
| RestApplications.EqualsIsValueEquality | model/model-mock/model-mock-rest/src/main/java/com/castlemock/model/mock/rest/domain/RestApplication.java:83-98 | `equals` holds exactly when all five fields are equal. |
| RestApplications.RestApplication.ToBuilder | model/model-mock/model-mock-rest/src/main/java/com/castlemock/model/mock/rest/domain/RestApplication.java:115-129 | `toBuilder()` returns a fresh builder holding copies of every field. |
| RestApplications.Builder.constructor | model/model-mock/model-mock-rest/src/main/java/com/castlemock/model/mock/rest/domain/RestApplication.java:111-140 | A new builder has nothing set. |
| RestApplications.Builder.SetId | model/model-mock/model-mock-rest/src/main/java/com/castlemock/model/mock/rest/domain/RestApplication.java:142-145 | Sets its own field, overwriting an earlier value, and changes no other field. |
| RestApplications.Builder.SetName | model/model-mock/model-mock-rest/src/main/java/com/castlemock/model/mock/rest/domain/RestApplication.java:147-150 | Sets its own field, overwriting an earlier value, and changes no other field. |
| RestApplications.Builder.SetProjectId | model/model-mock/model-mock-rest/src/main/java/com/castlemock/model/mock/rest/domain/RestApplication.java:152-155 | Sets its own field, overwriting an earlier value, and changes no other field. |
| RestApplications.Builder.SetResources | model/model-mock/model-mock-rest/src/main/java/com/castlemock/model/mock/rest/domain/RestApplication.java:157-160 | Sets its own field, overwriting an earlier value, and changes no other field. |
| RestApplications.Builder.SetStatusCount | model/model-mock/model-mock-rest/src/main/java/com/castlemock/model/mock/rest/domain/RestApplication.java:162-165 | Sets its own field, overwriting an earlier value, and changes no other field. |
| RestApplications.ToBuilderThenBuild | model/model-mock/model-mock-rest/src/main/java/com/castlemock/model/mock/rest/domain/RestApplication.java:115-169 | Running `toBuilder()` and then `build()` on the builder object never throws and yields the same application. Lists hold no null element in this model (see "Left out"). |

## Left out

- The SOAP client and the mock-response factory are inputs to the model, given as the answer each would return. The network call and the choice among mock responses are not modelled.
- The `SoapRequest` and `HttpServletRequest` parameters of `process` are left out. The strategies only pass them on to the two collaborators.
- `SoapResponseConverter.toCreateSoapMockResponseInput` and `UpdateSoapOperationsStatusInput` are not part of this model. Each follow-up command is a value that carries the arguments it was created from.
- `SoapStrategyResult` is not part of this model. A result built with only a response, as in the forwarding branch of `MockSoapStrategy`, is taken to have an empty follow-up list.
- The FORWARDED, RECORD and DISABLED strategies, all REST strategies, and how mock responses are matched against a request are not part of this model. The condition types are data only.
- `SoapOperation`, `SoapResponse`, `HttpHeader`, `HttpContentEncoding`, `RestJsonPathExpression`, `RestHeaderQuery`, `SoapXPathExpression`, `RestResource` and the status enums are stand-ins. Their sources are not part of this model. Each is compared by value equality and copied unchanged, including where `toBuilder()` rebuilds them through their own builders.
- `hashCode` of `RestMockResponse`, `SoapMockResponse`, `SoapPort` and `RestApplication` is not computed. It depends on the hash codes of the stand-in types and of enums. For the three types other than `SoapPort`, consistency with `equals` holds because `equals` is proved to be value equality, and `Objects.hash` is a function of the same fields. For `SoapPort`, `Objects.hash` hashes the operations list and status-count map through `List.hashCode` and `Map.hashCode`, which depend only on contents, so ports that are `equals` still hash alike.
- `JavaObjects.StringHash` computes Java's `String.hashCode` over Unicode scalar values. Java works over UTF-16 code units, so the two differ for characters outside the Basic Multilingual Plane.
- `httpStatusCode` is a Java `Integer` and is modelled as an unbounded integer. The source does no arithmetic on it, so 32-bit overflow does not arise.
- The getters of the value types are the datatype fields. A copying list getter returns the same sequence, since a copy with the same elements in the same order is the same value. `List.copyOf` also rejects null elements, and `Map.copyOf` in `RestApplication.getStatusCount` rejects null keys and values; neither rejection is modelled. The boxed `Integer` counts in the status-count maps of `RestApplication` and `SoapPort` may be null in Java; the model holds them as `int`.
- `RestApplication`, `RestMockResponse` and `SoapMockResponse`: the built value keeps the very list or map object handed to its builder, not a copy (`RestApplication.java:55-56`, `RestMockResponse.java:96-101`, `SoapMockResponse.java:81-83`). A later change to that collection through the caller's reference shows up in the built value's getters, `equals` and `hashCode`. The model holds these collections as values, so this sharing is not modelled.
- List elements are never null in the model. The Java builders and constructors accept null elements. `toBuilder()` of `RestMockResponse`, `SoapMockResponse` and `RestApplication` then throws `NullPointerException` when it rebuilds or copies such an element, and `List.equals` compares null elements as null. So their `RoundTrip` and `ToBuilderThenBuild` promise success only for lists without null elements.
- `equals` compares `usingExpressions` as boxed `Boolean` references. It is modelled as value equality on an optional boolean.
- Builder setters return the builder for chaining. The model's setters return nothing.
- The `CopyOnWriteArrayList` behind `SoapPort`'s operations is an ordinary mutable list here. Concurrent access is not modelled.
- `toString`, the XML and JSON binding annotations, and the request, output, event and persistence classes around the core are not part of this model.
