/** The error kinds the routers tell apart, and what an outbound HTTP call
    can come back with. */
module Errors {

  /** The httpx exceptions an outbound call can raise. The timeouts are the
      subclasses of `httpx.TimeoutException`; the four network errors are
      the subclasses of `httpx.NetworkError`; everything else (a protocol
      error, an undecodable body, any other exception) is `OtherFailure`.
      `description` is the exception's `str(e)`. */
  datatype TransportFailure =
    | ConnectTimeout | ReadTimeout | WriteTimeout | PoolTimeout
    | ConnectError(description: string) | ReadError(description: string)
    | WriteError(description: string) | CloseError(description: string)
    | OtherFailure(description: string)

  predicate IsTimeout(f: TransportFailure) {
    f.ConnectTimeout? || f.ReadTimeout? || f.WriteTimeout? || f.PoolTimeout?
  }

  predicate IsNetworkError(f: TransportFailure) {
    f.ConnectError? || f.ReadError? || f.WriteError? || f.CloseError?
  }

  /** A completed HTTP exchange: status code and body text. */
  datatype HttpResponse = HttpResponse(status: int, text: string)

  /** The result of one outbound call: a response, or a raised exception. */
  datatype CallOutcome = Responded(response: HttpResponse) | Raised(failure: TransportFailure)

  /** What an upstream error carries besides its message. */
  datatype UpstreamDetail = NoDetail | ResponseExcerpt(text: string) | TimeoutSeconds(seconds: int)

  /** The error kinds the handlers distinguish: a rejected request, a failed
      translation, an upstream failure carrying the status to answer with,
      and any other exception. */
  datatype Fault =
    | Validation(message: string)
    | Translation(message: string)
    | Upstream(status: int, message: string, detail: UpstreamDetail)
    | Unexpected(message: string)

  /** What the client finally receives from a handler that failed. */
  datatype HttpError = HttpError(status: int, detail: string)
}
