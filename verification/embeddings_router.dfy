/** The embeddings endpoint: validate the model name, translate the
    request, call upstream, read the body, translate it back. Unlike the chat
    router, only a connect error becomes a 502; other network errors escape
    as ordinary exceptions. The validator, translator and body reader are
    parameters. */
module EmbeddingsRouter {
  import opened Wrappers
  import opened Text
  import opened Errors
  import ChatUpstream
  import ChatHandlers

  /** The messages of the upstream errors the embedding call raises. */
  const EmbeddingBackendErrorMessage := "OpenAI embedding backend returned error"
  const EmbeddingTimeoutMessage := "Embedding request timeout"
  const ConnectErrorMessage := "Cannot connect to OpenAI backend"

  /** `make_openai_embedding_request`: a 200 response is passed on; any
      other status becomes an upstream error with that status and the first
      500 characters of the body (all of it when shorter); a timeout becomes
      504, a connect error 502, and any other exception is re-raised
      unchanged. */
  function CheckEmbeddingCall(outcome: CallOutcome): (r: Result<HttpResponse, Fault>)
    ensures outcome.Responded? && outcome.response.status == 200 ==> r == Ok(outcome.response)
    ensures outcome.Responded? && outcome.response.status != 200 ==>
      && r.Err? && r.error.Upstream?
      && r.error.status == outcome.response.status
      && r.error.message == EmbeddingBackendErrorMessage
      && r.error.detail.ResponseExcerpt?
      && |r.error.detail.text| <= ChatUpstream.ExcerptLength
      && StartsWith(outcome.response.text, r.error.detail.text)
      && (|outcome.response.text| <= ChatUpstream.ExcerptLength ==> r.error.detail.text == outcome.response.text)
      && (|outcome.response.text| > ChatUpstream.ExcerptLength ==> |r.error.detail.text| == ChatUpstream.ExcerptLength)
    ensures outcome.Raised? && IsTimeout(outcome.failure) ==> r == Err(Upstream(504, EmbeddingTimeoutMessage, NoDetail))
    ensures outcome.Raised? && outcome.failure.ConnectError? ==> r == Err(Upstream(502, ConnectErrorMessage, NoDetail))
    ensures outcome.Raised? && !IsTimeout(outcome.failure) && !outcome.failure.ConnectError? ==> r.Err? && r.error.Unexpected?
  {
    match outcome
    case Responded(resp) =>
      if resp.status != 200 then
        Err(Upstream(resp.status, EmbeddingBackendErrorMessage,
                     ResponseExcerpt(Truncate(resp.text, ChatUpstream.ExcerptLength))))
      else Ok(resp)
    case Raised(f) =>
      if IsTimeout(f) then Err(Upstream(504, EmbeddingTimeoutMessage, NoDetail))
      else if f.ConnectError? then Err(Upstream(502, ConnectErrorMessage, NoDetail))
      else Err(Unexpected(f.description))
  }

  /** The HTTP error for each error kind: a rejected request is 422, a
      failed translation 500, an upstream error keeps its own status,
      anything else is 500. */
  function EmbeddingError(f: Fault): (e: HttpError)
    ensures f.Validation? ==> e == HttpError(422, f.message)
    ensures f.Translation? ==> e == HttpError(500, "Failed to process embedding request")
    ensures f.Upstream? ==> e == HttpError(f.status, f.message)
    ensures f.Unexpected? ==> e == HttpError(500, "Internal server error")
  {
    match f
    case Validation(message) => HttpError(422, message)
    case Translation(_) => HttpError(500, "Failed to process embedding request")
    case Upstream(status, message, _) => HttpError(status, message)
    case Unexpected(_) => HttpError(500, "Internal server error")
  }

  /** The steps `create_embeddings` took before it answered. */
  datatype Step = Validate | Translate | Call | Read | TranslateBack

  /** The order the steps run in when none fails. */
  const StepOrder: seq<Step> := [Validate, Translate, Call, Read, TranslateBack]

  /** `create_embeddings`: the reply and the steps run, in order. The
      model name validated is the request's own `model` field, read by
      `modelOf`. A body that cannot be read as an embedding response is an
      upstream error with status 502. */
  function HandleEmbeddings<Req, U, R, O>(
    request: Req, modelOf: Req -> string,
    validate: string -> Option<Fault>,
    translateRequest: Req -> Result<U, Fault>,
    call: U -> CallOutcome,
    readResponse: string -> Option<R>,
    translateResponse: (R, Req) -> Result<O, Fault>): (r: (Result<O, HttpError>, seq<Step>))
    ensures validate(modelOf(request)).Some? ==> r == (Err(EmbeddingError(validate(modelOf(request)).value)), [Validate])
    ensures validate(modelOf(request)).None? && translateRequest(request).Err? ==>
      r == (Err(EmbeddingError(translateRequest(request).error)), [Validate, Translate])
    ensures Call in r.1 <==> validate(modelOf(request)).None? && translateRequest(request).Ok?
    ensures 1 <= |r.1| <= |StepOrder| && r.1 == StepOrder[..|r.1|]
    ensures validate(modelOf(request)).None? && translateRequest(request).Ok? ==>
      var outcome := call(translateRequest(request).value);
      && (CheckEmbeddingCall(outcome).Err? ==> r.0 == Err(EmbeddingError(CheckEmbeddingCall(outcome).error)))
      && (outcome.Responded? && outcome.response.status != 200 ==> r.0.Err? && r.0.error.status == outcome.response.status)
      && (outcome.Responded? && outcome.response.status == 200 && readResponse(outcome.response.text).None? ==>
            r.0 == Err(HttpError(502, "Invalid response from OpenAI backend")))
      && (outcome.Responded? && outcome.response.status == 200 && readResponse(outcome.response.text).Some? ==>
            match translateResponse(readResponse(outcome.response.text).value, request)
            case Ok(body) => r.0 == Ok(body)
            case Err(f) => r.0 == Err(EmbeddingError(f)))
      && (r.0.Ok? <==>
            && outcome.Responded? && outcome.response.status == 200
            && readResponse(outcome.response.text).Some?
            && translateResponse(readResponse(outcome.response.text).value, request).Ok?)
  {
    match validate(modelOf(request))
    case Some(f) => (Err(EmbeddingError(f)), [Validate])
    case None =>
      match translateRequest(request)
      case Err(f) => (Err(EmbeddingError(f)), [Validate, Translate])
      case Ok(up) =>
        match CheckEmbeddingCall(call(up))
        case Err(f) => (Err(EmbeddingError(f)), [Validate, Translate, Call])
        case Ok(resp) =>
          match readResponse(resp.text)
          case None =>
            (Err(EmbeddingError(Upstream(502, "Invalid response from OpenAI backend", NoDetail))),
             [Validate, Translate, Call, Read])
          case Some(openaiResponse) =>
            match translateResponse(openaiResponse, request)
            case Err(f) => (Err(EmbeddingError(f)), [Validate, Translate, Call, Read, TranslateBack])
            case Ok(body) => (Ok(body), [Validate, Translate, Call, Read, TranslateBack])
  }

  /** A network error other than a connect error (a read, write or close
      error) reaches a chat client as 502 but an embeddings client as 500,
      because the embeddings router catches only `httpx.ConnectError`. */
  lemma NetworkErrorsDiffer(f: TransportFailure, requestTimeout: int)
    requires IsNetworkError(f) && !f.ConnectError?
    ensures ChatHandlers.CompletionError(ChatUpstream.CheckChatCall(Raised(f), requestTimeout).error).status == 502
    ensures EmbeddingError(CheckEmbeddingCall(Raised(f)).error).status == 500
  {
  }

  /** Timeouts and connect errors are answered alike by both routers. */
  lemma TimeoutAndConnectAgree(f: TransportFailure, requestTimeout: int)
    requires IsTimeout(f) || f.ConnectError?
    ensures ChatHandlers.CompletionError(ChatUpstream.CheckChatCall(Raised(f), requestTimeout).error).status
         == EmbeddingError(CheckEmbeddingCall(Raised(f)).error).status
  {
  }
}
