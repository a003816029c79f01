/** `make_openai_request`: the classification of one non-streaming call to
    the upstream `/chat/completions` endpoint. */
module ChatUpstream {
  import opened Wrappers
  import opened Text
  import opened Errors

  /** At most this many characters of an error body are kept. */
  const ExcerptLength: nat := 500

  const StatusGatewayTimeout := 504
  const StatusBadGateway := 502

  /** The messages of the upstream errors this call raises. */
  const BackendErrorMessage := "OpenAI backend returned error"
  const TimeoutMessage := "Request timeout"
  const NetworkErrorPrefix := "HTTP request failed: "

  /** What the chat router turns a raised transport exception into: a
      timeout becomes a 504 upstream error naming the configured timeout, a
      network error a 502 upstream error whose message carries the
      exception's text, and anything else is re-raised unchanged. */
  function ChatFailureFault(f: TransportFailure, requestTimeout: int): (r: Fault)
    ensures IsTimeout(f) ==> r == Upstream(504, TimeoutMessage, TimeoutSeconds(requestTimeout))
    ensures IsNetworkError(f) ==> r == Upstream(502, NetworkErrorPrefix + f.description, NoDetail)
    ensures !IsTimeout(f) && !IsNetworkError(f) ==> r.Unexpected?
  {
    if IsTimeout(f) then Upstream(StatusGatewayTimeout, TimeoutMessage, TimeoutSeconds(requestTimeout))
    else if IsNetworkError(f) then Upstream(StatusBadGateway, NetworkErrorPrefix + f.description, NoDetail)
    else Unexpected(f.description)
  }

  /** `make_openai_request`: a 200 response is passed on; any other status
      becomes an upstream error with that same status and the first 500
      characters of the body (all of it when shorter); raised exceptions are classified by
      `ChatFailureFault`. */
  function CheckChatCall(outcome: CallOutcome, requestTimeout: int): (r: Result<HttpResponse, Fault>)
    ensures outcome.Responded? && outcome.response.status == 200 ==> r == Ok(outcome.response)
    ensures outcome.Responded? && outcome.response.status != 200 ==>
      && r.Err? && r.error.Upstream?
      && r.error.status == outcome.response.status
      && r.error.message == BackendErrorMessage
      && r.error.detail.ResponseExcerpt?
      && |r.error.detail.text| <= ExcerptLength
      && StartsWith(outcome.response.text, r.error.detail.text)
      && (|outcome.response.text| <= ExcerptLength ==> r.error.detail.text == outcome.response.text)
      && (|outcome.response.text| > ExcerptLength ==> |r.error.detail.text| == ExcerptLength)
    ensures outcome.Raised? ==> r == Err(ChatFailureFault(outcome.failure, requestTimeout))
  {
    match outcome
    case Responded(resp) =>
      if resp.status != 200 then
        Err(Upstream(resp.status, BackendErrorMessage,
                     ResponseExcerpt(Truncate(resp.text, ExcerptLength))))
      else Ok(resp)
    case Raised(f) => Err(ChatFailureFault(f, requestTimeout))
  }
}
