/** What the stores see of the HTTP client: a request either yields the response body or
    rejects with an error object. The client itself (base URL, bearer token, headers) is
    not part of this model; every response or failure is an input to the action that
    awaited it. */
module Http {

  /** The fields of a rejected request that the stores inspect: `error.name`,
      `error.code` and `error.response?.data?.message` (the empty string when absent). */
  datatype HttpError = HttpError(name: string, code: string, serverMessage: string)

  /** The settled value of an awaited request. */
  datatype Outcome<+T> = Ok(value: T) | Err(error: HttpError)

  /** `error.response?.data?.message || fallback`. */
  function ErrorMessage(e: HttpError, fallback: string): (m: string)
    ensures e.serverMessage != "" ==> m == e.serverMessage
    ensures e.serverMessage == "" ==> m == fallback
  {
    if e.serverMessage != "" then e.serverMessage else fallback
  }

  /** A rejection caused by aborting the request (fetch's `AbortError` or axios's
      `ERR_CANCELED`), which the alerts store does not report as an error. */
  predicate IsCancellation(e: HttpError): (r: bool)
    ensures e.name == "AbortError" ==> r
    ensures e.code == "ERR_CANCELED" ==> r
    ensures r ==> e.name == "AbortError" || e.code == "ERR_CANCELED"
  {
    e.name == "AbortError" || e.code == "ERR_CANCELED"
  }
}
