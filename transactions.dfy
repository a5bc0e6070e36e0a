/** The recorded HTTP call (HttpTransaction), restricted to the columns the core reads or writes. */
module Transactions {
  import opened Wrappers

  datatype HttpTransaction = HttpTransaction(
    id: int,
    requestDate: Option<int>,
    httpMethod: Option<string>,  // the entity's `method` column
    url: Option<string>,
    requestContentType: Option<string>,
    responseCode: Option<int>,
    responseMessage: Option<string>,
    protocol: Option<string>,
    responseBody: Option<string>,
    error: Option<string>,
    wasResponseMocked: bool,
    shouldUseMock: bool)

  /** `HttpTransaction()`: a fresh record with no id, no data and both mock flags off. */
  function NewTransaction(): (t: HttpTransaction)
    ensures t.id == 0 && t.error.None? && !t.wasResponseMocked && !t.shouldUseMock
  {
    HttpTransaction(0, None, None, None, None, None, None, None, None, None, false, false)
  }
}
