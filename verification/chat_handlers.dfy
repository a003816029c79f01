/** The `generate` and `chat` endpoints. Both run the same steps: translate
    the request; for a streaming request hand the translated request to the
    stream bridge; otherwise call upstream, read the body as an
    `OpenAIChatResponse` and translate it back. Every failure is turned into
    an HTTP error by its kind. The translator and the JSON parser are
    parameters; the upstream call is a function from the translated request
    to what the call came back with. */
module ChatHandlers {
  import opened Wrappers
  import opened JsonValue
  import opened Errors
  import opened ChatUpstream
  import Models

  /** What the endpoint answers: a JSON body, a streaming response that
      will run the bridge on the translated request, or an HTTP error. */
  datatype Reply<U, O> = JsonReply(body: O) | StreamReply(upstreamRequest: U) | ErrorReply(error: HttpError)

  const TranslationPrefix := "Translation error: "
  const UpstreamPrefix := "Upstream error: "
  const InternalError := "Internal server error"

  /** The HTTP error for each error kind: a rejected request and a failed
      translation are 400, an upstream error keeps its own status, anything
      else is 500. */
  function CompletionError(f: Fault): (e: HttpError)
    ensures f.Validation? ==> e == HttpError(400, f.message)
    ensures f.Translation? ==> e.status == 400 && e.detail == TranslationPrefix + f.message
    ensures f.Upstream? ==> e.status == f.status && e.detail == UpstreamPrefix + f.message
    ensures f.Unexpected? ==> e == HttpError(500, InternalError)
  {
    match f
    case Validation(message) => HttpError(400, message)
    case Translation(message) => HttpError(400, TranslationPrefix + message)
    case Upstream(status, message, _) => HttpError(status, UpstreamPrefix + message)
    case Unexpected(_) => HttpError(500, InternalError)
  }

  /** `OpenAIChatResponse(**response.json())`: the body must parse as JSON,
      be an object, and decode as a chat response; any failure here is an
      ordinary exception. */
  function ReadChatResponse(text: string, parseJson: string -> Option<Json>): (r: Result<Models.OpenAIChatResponse, Fault>)
    ensures r.Err? ==> r.error.Unexpected?
    ensures r.Ok? <==>
      parseJson(text).Some? && parseJson(text).value.JObject?
      && Models.DecodeOpenAIChatResponse(parseJson(text).value.fields).Ok?
  {
    match parseJson(text)
    case None => Err(Unexpected("response body is not JSON"))
    case Some(j) =>
      if !j.JObject? then Err(Unexpected("response body is not an object"))
      else match Models.DecodeOpenAIChatResponse(j.fields)
        case Ok(resp) => Ok(resp)
        case Err(_) => Err(Unexpected("response body is not a chat completion"))
  }

  /** `generate` and `chat`. A failed translation is answered with its
      error; a request whose own `stream` field, read by `streamOf`, is set
      gets the bridge on the translated request;
      otherwise the reply is decided by what the upstream call returned. */
  function HandleCompletion<Req, U, O>(
    request: Req, streamOf: Req -> bool,
    translateRequest: Req -> Result<U, Fault>,
    call: U -> CallOutcome,
    parseJson: string -> Option<Json>,
    translateResponse: (Models.OpenAIChatResponse, Req) -> Result<O, Fault>,
    requestTimeout: int): (r: Reply<U, O>)
    ensures translateRequest(request).Err? ==> r == ErrorReply(CompletionError(translateRequest(request).error))
    ensures translateRequest(request).Ok? && streamOf(request) ==> r == StreamReply(translateRequest(request).value)
    ensures translateRequest(request).Ok? && !streamOf(request) ==>
      r == ReplyToCall<Req, U, O>(call(translateRequest(request).value), request, parseJson, translateResponse, requestTimeout)
    ensures r.StreamReply? <==> translateRequest(request).Ok? && streamOf(request)
  {
    match translateRequest(request)
    case Err(f) => ErrorReply(CompletionError(f))
    case Ok(up) =>
      if streamOf(request) then StreamReply(up)
      else ReplyToCall(call(up), request, parseJson, translateResponse, requestTimeout)
  }

  /** The non-streaming part of `generate` and `chat`, from what the
      upstream call came back with: the call is classified, the body read
      and the response translated back, and the first of these to fail
      decides the HTTP error. */
  function ReplyToCall<Req, U, O>(
    outcome: CallOutcome, request: Req,
    parseJson: string -> Option<Json>,
    translateResponse: (Models.OpenAIChatResponse, Req) -> Result<O, Fault>,
    requestTimeout: int): (r: Reply<U, O>)
    ensures !r.StreamReply?
    ensures outcome.Responded? && outcome.response.status != 200 ==>
      r == ErrorReply(HttpError(outcome.response.status, UpstreamPrefix + BackendErrorMessage))
    ensures outcome.Raised? && IsTimeout(outcome.failure) ==> r == ErrorReply(HttpError(504, UpstreamPrefix + TimeoutMessage))
    ensures outcome.Raised? && IsNetworkError(outcome.failure) ==>
      r == ErrorReply(HttpError(502, UpstreamPrefix + NetworkErrorPrefix + outcome.failure.description))
    ensures outcome.Raised? && !IsTimeout(outcome.failure) && !IsNetworkError(outcome.failure) ==>
      r == ErrorReply(HttpError(500, InternalError))
    ensures outcome.Responded? && outcome.response.status == 200 ==>
      r == ReplyToBody(outcome.response.text, request, parseJson, translateResponse)
    ensures r.JsonReply? <==>
      && outcome.Responded? && outcome.response.status == 200
      && ReadChatResponse(outcome.response.text, parseJson).Ok?
      && translateResponse(ReadChatResponse(outcome.response.text, parseJson).value, request).Ok?
  {
    match CheckChatCall(outcome, requestTimeout)
    case Err(f) => ErrorReply(CompletionError(f))
    case Ok(resp) => ReplyToBody(resp.text, request, parseJson, translateResponse)
  }

  /** The part of `generate` and `chat` after a 200 response: an unreadable
      body is an ordinary exception (500), a failed translation back is
      answered with its own error, and otherwise the translated body is
      the reply. */
  function ReplyToBody<Req, U, O>(
    text: string, request: Req,
    parseJson: string -> Option<Json>,
    translateResponse: (Models.OpenAIChatResponse, Req) -> Result<O, Fault>): (r: Reply<U, O>)
    ensures !r.StreamReply?
    ensures ReadChatResponse(text, parseJson).Err? ==> r == ErrorReply(HttpError(500, InternalError))
    ensures ReadChatResponse(text, parseJson).Ok? ==>
      match translateResponse(ReadChatResponse(text, parseJson).value, request)
      case Ok(body) => r == JsonReply(body)
      case Err(f) => r == ErrorReply(CompletionError(f))
  {
    match ReadChatResponse(text, parseJson)
    case Err(f) => ErrorReply(CompletionError(f))
    case Ok(openaiResponse) =>
      match translateResponse(openaiResponse, request)
      case Err(f) => ErrorReply(CompletionError(f))
      case Ok(body) => JsonReply(body)
  }

  /** A request that fails translation, or asks for a stream, is answered
      without calling upstream: the reply is the same whatever the call
      would have returned. */
  lemma NoCallBeforeTranslation<Req, U, O>(
    request: Req, streamOf: Req -> bool,
    translateRequest: Req -> Result<U, Fault>,
    call1: U -> CallOutcome, call2: U -> CallOutcome,
    parseJson: string -> Option<Json>,
    translateResponse: (Models.OpenAIChatResponse, Req) -> Result<O, Fault>,
    requestTimeout: int)
    requires translateRequest(request).Err? || streamOf(request)
    ensures HandleCompletion(request, streamOf, translateRequest, call1, parseJson, translateResponse, requestTimeout)
         == HandleCompletion(request, streamOf, translateRequest, call2, parseJson, translateResponse, requestTimeout)
  {
  }
}
