/** What an adapter sees of one HTTP exchange once `reqwest` is abstracted away. */
module Http {
  import opened Common

  /** The outcome of sending one request: either it never produced a response
      (DNS, TLS, timeout, connection reset), or a response arrived with a
      status code and a body that either could be read as text (`Some`) or
      could not (`None`). */
  datatype Reply =
    | TransportFailure(detail: string)
    | Response(status: int, body: Option<string>)

  /** `StatusCode::is_success`: a 2xx status. */
  predicate IsSuccess(status: int) {
    200 <= status < 300
  }

  /** `resp.text().await.unwrap_or_default()`: an unreadable body reads as "". */
  function TextOrDefault(body: Option<string>): (text: string)
    ensures body.Some? ==> text == body.value
    ensures body.None? ==> text == ""
  {
    body.UnwrapOr("")
  }
}
