/** What an `/ask` request produces: the HTTP response and the question handed to the
    answer engine, if any. */
module Http {
  import opened Wrappers
  import opened PyJson

  /** A response body: `{"answer": ...}`, `{"error": ...}`, or the page Flask sends for an
      exception the view function does not catch. */
  datatype Payload = Answer(answer: string) | Error(error: string) | ServerErrorPage

  datatype Response = Response(status: nat, payload: Payload)

  /** One request handled: the response, and `Some(q)` exactly when the handler passed `q`
      on to the query path (`None`: the engine was never called). */
  datatype Exchange = Exchange(response: Response, query: Option<Json>)

  /** An exception the view lets escape: Flask answers 500 with its own error page. */
  const Unhandled := Exchange(Response(500, ServerErrorPage), None)
}
