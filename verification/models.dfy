/** The wire records of both dialects with their defaults, and how a JSON
    object is read into them: a missing required field is an error, a
    missing field with a default takes the default, an explicit `null` is
    accepted only by `Optional` fields, and unknown keys are ignored. */
module Models {
  import opened Wrappers
  import opened JsonValue

  // ---------------------------------------------------------------- readers

  datatype FieldError = MissingField(name: string) | WrongType(name: string)

  /** How a field treats absence: required, defaulted, or `Optional[...]`
      (which also accepts an explicit `null`). */
  datatype Presence = IsRequired | HasDefault | IsOptional

  /** The condition under which reading one field succeeds. */
  predicate FieldOk<T>(obj: map<string, Json>, key: string, decode: Json -> Option<T>, presence: Presence) {
    if key !in obj then presence != IsRequired
    else (presence == IsOptional && obj[key] == JNull) || decode(obj[key]).Some?
  }

  function Required<T>(obj: map<string, Json>, key: string, decode: Json -> Option<T>): (r: Result<T, FieldError>)
    ensures r.Ok? <==> FieldOk(obj, key, decode, IsRequired)
    ensures r.Ok? ==> decode(obj[key]) == Some(r.value)
  {
    if key !in obj then Err(MissingField(key))
    else match decode(obj[key])
      case Some(v) => Ok(v)
      case None => Err(WrongType(key))
  }

  function Defaulted<T>(obj: map<string, Json>, key: string, decode: Json -> Option<T>, default: T): (r: Result<T, FieldError>)
    ensures r.Ok? <==> FieldOk(obj, key, decode, HasDefault)
    ensures key !in obj ==> r == Ok(default)
    ensures key in obj && r.Ok? ==> decode(obj[key]) == Some(r.value)
  {
    if key !in obj then Ok(default)
    else match decode(obj[key])
      case Some(v) => Ok(v)
      case None => Err(WrongType(key))
  }

  function Optional<T>(obj: map<string, Json>, key: string, decode: Json -> Option<T>, default: Option<T>): (r: Result<Option<T>, FieldError>)
    ensures r.Ok? <==> FieldOk(obj, key, decode, IsOptional)
    ensures key !in obj ==> r == Ok(default)
    ensures key in obj && obj[key] == JNull ==> r == Ok(None)
    ensures key in obj && obj[key] != JNull && r.Ok? ==> r.value.Some? && decode(obj[key]) == r.value
  {
    if key !in obj then Ok(default)
    else if obj[key] == JNull then Ok(None)
    else match decode(obj[key])
      case Some(v) => Ok(Some(v))
      case None => Err(WrongType(key))
  }

  function AsString(j: Json): Option<string> {
    if j.JString? then Some(j.s) else None
  }

  function AsBool(j: Json): Option<bool> {
    if j.JBool? then Some(j.b) else None
  }

  function AsInt(j: Json): Option<int> {
    if j.JInt? then Some(j.i) else None
  }

  /** A float field accepts JSON integers and floats alike. */
  function AsFloat(j: Json): Option<real> {
    match j
    case JInt(i) => Some(i as real)
    case JFloat(f) => Some(f)
    case _ => None
  }

  function AsObject(j: Json): Option<map<string, Json>> {
    if j.JObject? then Some(j.fields) else None
  }

  /** A list field: every element must decode, and order is kept. */
  function DecodeList<T>(xs: seq<Json>, decode: Json -> Option<T>): (r: Option<seq<T>>)
    ensures r.Some? <==> forall i | 0 <= i < |xs| :: decode(xs[i]).Some?
    ensures r.Some? ==> |r.value| == |xs| && forall i | 0 <= i < |xs| :: decode(xs[i]) == Some(r.value[i])
  {
    if |xs| == 0 then Some([])
    else
      var head := decode(xs[0]);
      var tail := DecodeList(xs[1..], decode);
      if head.Some? && tail.Some? then Some([head.value] + tail.value) else None
  }

  function AsList<T>(decode: Json -> Option<T>): Json -> Option<seq<T>> {
    (j: Json) => if j.JArray? then DecodeList(j.items, decode) else None
  }

  /** A `Dict[str, float]` field. */
  function AsFloatMap(j: Json): (r: Option<map<string, real>>)
    ensures r.Some? ==> j.JObject? && r.value.Keys == j.fields.Keys
  {
    if j.JObject? && forall k | k in j.fields :: AsFloat(j.fields[k]).Some? then
      Some(map k | k in j.fields :: AsFloat(j.fields[k]).value)
    else None
  }

  // ---------------------------------------------------------- Ollama records

  datatype OllamaGenerateRequest = OllamaGenerateRequest(
    model: string,
    prompt: string,
    images: Option<seq<string>>,
    stream: bool,
    options: Option<map<string, Json>>,
    system: Option<string>,
    template: Option<string>,
    context: Option<seq<int>>,
    raw: bool)

  /** `OllamaGenerateRequest(**obj)`: `model` and `prompt` are required,
      `stream` defaults to true and `raw` to false, and the five optional
      fields default to absent. */
  function DecodeGenerateRequest(obj: map<string, Json>): (r: Result<OllamaGenerateRequest, FieldError>)
    ensures r.Ok? <==>
      && FieldOk(obj, "model", AsString, IsRequired)
      && FieldOk(obj, "prompt", AsString, IsRequired)
      && FieldOk(obj, "images", AsList(AsString), IsOptional)
      && FieldOk(obj, "stream", AsBool, HasDefault)
      && FieldOk(obj, "options", AsObject, IsOptional)
      && FieldOk(obj, "system", AsString, IsOptional)
      && FieldOk(obj, "template", AsString, IsOptional)
      && FieldOk(obj, "context", AsList(AsInt), IsOptional)
      && FieldOk(obj, "raw", AsBool, HasDefault)
    ensures r.Ok? ==> obj["model"] == JString(r.value.model) && obj["prompt"] == JString(r.value.prompt)
    ensures r.Ok? && "stream" !in obj ==> r.value.stream
    ensures r.Ok? && "raw" !in obj ==> !r.value.raw
    ensures r.Ok? && "images" !in obj ==> r.value.images.None?
    ensures r.Ok? && "options" !in obj ==> r.value.options.None?
    ensures r.Ok? && "system" !in obj ==> r.value.system.None?
    ensures r.Ok? && "template" !in obj ==> r.value.template.None?
    ensures r.Ok? && "context" !in obj ==> r.value.context.None?
    ensures r.Ok? ==>
      && Defaulted(obj, "stream", AsBool, true) == Ok(r.value.stream)
      && Defaulted(obj, "raw", AsBool, false) == Ok(r.value.raw)
      && Optional(obj, "images", AsList(AsString), None) == Ok(r.value.images)
      && Optional(obj, "options", AsObject, None) == Ok(r.value.options)
      && Optional(obj, "system", AsString, None) == Ok(r.value.system)
      && Optional(obj, "template", AsString, None) == Ok(r.value.template)
      && Optional(obj, "context", AsList(AsInt), None) == Ok(r.value.context)
  {
    var model :- Required(obj, "model", AsString);
    var prompt :- Required(obj, "prompt", AsString);
    var images :- Optional(obj, "images", AsList(AsString), None);
    var stream :- Defaulted(obj, "stream", AsBool, true);
    var options :- Optional(obj, "options", AsObject, None);
    var system :- Optional(obj, "system", AsString, None);
    var template :- Optional(obj, "template", AsString, None);
    var context :- Optional(obj, "context", AsList(AsInt), None);
    var raw :- Defaulted(obj, "raw", AsBool, false);
    Ok(OllamaGenerateRequest(model, prompt, images, stream, options, system, template, context, raw))
  }

  datatype OllamaChatMessage = OllamaChatMessage(role: string, content: string, images: Option<seq<string>>)

  /** `OllamaChatMessage(**obj)`: `role` and `content` are required and
      `images` defaults to absent. */
  function DecodeOllamaMessage(obj: map<string, Json>): (r: Result<OllamaChatMessage, FieldError>)
    ensures r.Ok? <==>
      && FieldOk(obj, "role", AsString, IsRequired)
      && FieldOk(obj, "content", AsString, IsRequired)
      && FieldOk(obj, "images", AsList(AsString), IsOptional)
    ensures r.Ok? && "images" !in obj ==> r.value.images.None?
    ensures r.Ok? ==>
      && AsString(obj["role"]) == Some(r.value.role)
      && AsString(obj["content"]) == Some(r.value.content)
      && Optional(obj, "images", AsList(AsString), None) == Ok(r.value.images)
  {
    var role :- Required(obj, "role", AsString);
    var content :- Required(obj, "content", AsString);
    var images :- Optional(obj, "images", AsList(AsString), None);
    Ok(OllamaChatMessage(role, content, images))
  }

  function AsOllamaMessage(j: Json): Option<OllamaChatMessage> {
    if j.JObject? && DecodeOllamaMessage(j.fields).Ok? then Some(DecodeOllamaMessage(j.fields).value) else None
  }

  datatype OllamaChatRequest = OllamaChatRequest(
    model: string,
    messages: seq<OllamaChatMessage>,
    stream: bool,
    options: Option<map<string, Json>>,
    template: Option<string>)

  /** `OllamaChatRequest(**obj)`: `model` and `messages` are required,
      `stream` defaults to true, `options` and `template` to absent. */
  function DecodeChatRequest(obj: map<string, Json>): (r: Result<OllamaChatRequest, FieldError>)
    ensures r.Ok? <==>
      && FieldOk(obj, "model", AsString, IsRequired)
      && FieldOk(obj, "messages", AsList(AsOllamaMessage), IsRequired)
      && FieldOk(obj, "stream", AsBool, HasDefault)
      && FieldOk(obj, "options", AsObject, IsOptional)
      && FieldOk(obj, "template", AsString, IsOptional)
    ensures r.Ok? && "stream" !in obj ==> r.value.stream
    ensures r.Ok? && "options" !in obj ==> r.value.options.None?
    ensures r.Ok? && "template" !in obj ==> r.value.template.None?
    ensures r.Ok? ==> obj["messages"].JArray? && |r.value.messages| == |obj["messages"].items|
    ensures r.Ok? ==> forall i | 0 <= i < |r.value.messages| ::
      AsOllamaMessage(obj["messages"].items[i]) == Some(r.value.messages[i])
    ensures r.Ok? ==>
      && AsString(obj["model"]) == Some(r.value.model)
      && Defaulted(obj, "stream", AsBool, true) == Ok(r.value.stream)
      && Optional(obj, "options", AsObject, None) == Ok(r.value.options)
      && Optional(obj, "template", AsString, None) == Ok(r.value.template)
  {
    var model :- Required(obj, "model", AsString);
    var messages :- Required(obj, "messages", AsList(AsOllamaMessage));
    var stream :- Defaulted(obj, "stream", AsBool, true);
    var options :- Optional(obj, "options", AsObject, None);
    var template :- Optional(obj, "template", AsString, None);
    Ok(OllamaChatRequest(model, messages, stream, options, template))
  }

  datatype OllamaGenerateResponse = OllamaGenerateResponse(
    model: string,
    createdAt: string,
    response: string,
    done: bool,
    context: Option<seq<int>>,
    totalDuration: Option<int>,
    loadDuration: Option<int>,
    promptEvalCount: Option<int>,
    promptEvalDuration: Option<int>,
    evalCount: Option<int>,
    evalDuration: Option<int>)

  /** `OllamaGenerateResponse(**obj)`: the four leading fields are required;
      the context and all six duration and count fields are optional. */
  function DecodeGenerateResponse(obj: map<string, Json>): (r: Result<OllamaGenerateResponse, FieldError>)
    ensures r.Ok? <==>
      && FieldOk(obj, "model", AsString, IsRequired)
      && FieldOk(obj, "created_at", AsString, IsRequired)
      && FieldOk(obj, "response", AsString, IsRequired)
      && FieldOk(obj, "done", AsBool, IsRequired)
      && FieldOk(obj, "context", AsList(AsInt), IsOptional)
      && FieldOk(obj, "total_duration", AsInt, IsOptional)
      && FieldOk(obj, "load_duration", AsInt, IsOptional)
      && FieldOk(obj, "prompt_eval_count", AsInt, IsOptional)
      && FieldOk(obj, "prompt_eval_duration", AsInt, IsOptional)
      && FieldOk(obj, "eval_count", AsInt, IsOptional)
      && FieldOk(obj, "eval_duration", AsInt, IsOptional)
    ensures r.Ok? && "context" !in obj ==> r.value.context.None?
    ensures r.Ok? && "total_duration" !in obj ==> r.value.totalDuration.None?
    ensures r.Ok? && "load_duration" !in obj ==> r.value.loadDuration.None?
    ensures r.Ok? && "prompt_eval_count" !in obj ==> r.value.promptEvalCount.None?
    ensures r.Ok? && "prompt_eval_duration" !in obj ==> r.value.promptEvalDuration.None?
    ensures r.Ok? && "eval_count" !in obj ==> r.value.evalCount.None?
    ensures r.Ok? && "eval_duration" !in obj ==> r.value.evalDuration.None?
    ensures r.Ok? ==>
      && AsString(obj["model"]) == Some(r.value.model)
      && AsString(obj["created_at"]) == Some(r.value.createdAt)
      && AsString(obj["response"]) == Some(r.value.response)
      && AsBool(obj["done"]) == Some(r.value.done)
    ensures r.Ok? ==>
      && Optional(obj, "context", AsList(AsInt), None) == Ok(r.value.context)
      && Optional(obj, "total_duration", AsInt, None) == Ok(r.value.totalDuration)
      && Optional(obj, "load_duration", AsInt, None) == Ok(r.value.loadDuration)
      && Optional(obj, "prompt_eval_count", AsInt, None) == Ok(r.value.promptEvalCount)
      && Optional(obj, "prompt_eval_duration", AsInt, None) == Ok(r.value.promptEvalDuration)
      && Optional(obj, "eval_count", AsInt, None) == Ok(r.value.evalCount)
      && Optional(obj, "eval_duration", AsInt, None) == Ok(r.value.evalDuration)
  {
    var model :- Required(obj, "model", AsString);
    var createdAt :- Required(obj, "created_at", AsString);
    var response :- Required(obj, "response", AsString);
    var done :- Required(obj, "done", AsBool);
    var context :- Optional(obj, "context", AsList(AsInt), None);
    var totalDuration :- Optional(obj, "total_duration", AsInt, None);
    var loadDuration :- Optional(obj, "load_duration", AsInt, None);
    var promptEvalCount :- Optional(obj, "prompt_eval_count", AsInt, None);
    var promptEvalDuration :- Optional(obj, "prompt_eval_duration", AsInt, None);
    var evalCount :- Optional(obj, "eval_count", AsInt, None);
    var evalDuration :- Optional(obj, "eval_duration", AsInt, None);
    Ok(OllamaGenerateResponse(model, createdAt, response, done, context, totalDuration, loadDuration,
                              promptEvalCount, promptEvalDuration, evalCount, evalDuration))
  }

  // ---------------------------------------------------------- OpenAI records

  /** `Union[str, List[Dict[str, Any]]]`: plain text or a list of part records. */
  datatype MessageContent = TextContent(text: string) | PartsContent(parts: seq<map<string, Json>>)

  function AsContent(j: Json): Option<MessageContent> {
    match j
    case JString(s) => Some(TextContent(s))
    case JArray(_) =>
      var parts := AsList(AsObject)(j);
      if parts.Some? then Some(PartsContent(parts.value)) else None
    case _ => None
  }

  datatype OpenAIMessage = OpenAIMessage(role: string, content: MessageContent, name: Option<string>)

  /** `OpenAIMessage(**obj)`: `role` and `content` are required, `name`
      defaults to absent. */
  function DecodeOpenAIMessage(obj: map<string, Json>): (r: Result<OpenAIMessage, FieldError>)
    ensures r.Ok? <==>
      && FieldOk(obj, "role", AsString, IsRequired)
      && FieldOk(obj, "content", AsContent, IsRequired)
      && FieldOk(obj, "name", AsString, IsOptional)
    ensures r.Ok? && "name" !in obj ==> r.value.name.None?
    ensures r.Ok? ==>
      && AsString(obj["role"]) == Some(r.value.role)
      && AsContent(obj["content"]) == Some(r.value.content)
      && Optional(obj, "name", AsString, None) == Ok(r.value.name)
  {
    var role :- Required(obj, "role", AsString);
    var content :- Required(obj, "content", AsContent);
    var name :- Optional(obj, "name", AsString, None);
    Ok(OpenAIMessage(role, content, name))
  }

  function AsOpenAIMessage(j: Json): Option<OpenAIMessage> {
    if j.JObject? && DecodeOpenAIMessage(j.fields).Ok? then Some(DecodeOpenAIMessage(j.fields).value) else None
  }

  /** `Union[str, List[str]]` for stop sequences. */
  datatype StopSpec = StopText(text: string) | StopList(texts: seq<string>)

  function AsStop(j: Json): Option<StopSpec> {
    match j
    case JString(s) => Some(StopText(s))
    case JArray(_) =>
      var texts := AsList(AsString)(j);
      if texts.Some? then Some(StopList(texts.value)) else None
    case _ => None
  }

  datatype OpenAIChatRequest = OpenAIChatRequest(
    model: string,
    messages: seq<OpenAIMessage>,
    temperature: Option<real>,
    topP: Option<real>,
    n: Option<int>,
    stream: Option<bool>,
    stop: Option<StopSpec>,
    maxTokens: Option<int>,
    presencePenalty: Option<real>,
    frequencyPenalty: Option<real>,
    logitBias: Option<map<string, real>>,
    user: Option<string>)

  /** `OpenAIChatRequest(**obj)`: temperature and top_p default to 1.0, n
      to 1, stream to false, both penalties to 0.0; stop, max_tokens,
      logit_bias and user default to absent. Every one of these fields also
      accepts an explicit `null`. */
  function DecodeOpenAIChatRequest(obj: map<string, Json>): (r: Result<OpenAIChatRequest, FieldError>)
    ensures r.Ok? <==>
      && FieldOk(obj, "model", AsString, IsRequired)
      && FieldOk(obj, "messages", AsList(AsOpenAIMessage), IsRequired)
      && FieldOk(obj, "temperature", AsFloat, IsOptional)
      && FieldOk(obj, "top_p", AsFloat, IsOptional)
      && FieldOk(obj, "n", AsInt, IsOptional)
      && FieldOk(obj, "stream", AsBool, IsOptional)
      && FieldOk(obj, "stop", AsStop, IsOptional)
      && FieldOk(obj, "max_tokens", AsInt, IsOptional)
      && FieldOk(obj, "presence_penalty", AsFloat, IsOptional)
      && FieldOk(obj, "frequency_penalty", AsFloat, IsOptional)
      && FieldOk(obj, "logit_bias", AsFloatMap, IsOptional)
      && FieldOk(obj, "user", AsString, IsOptional)
    ensures r.Ok? && "temperature" !in obj ==> r.value.temperature == Some(1.0)
    ensures r.Ok? && "top_p" !in obj ==> r.value.topP == Some(1.0)
    ensures r.Ok? && "n" !in obj ==> r.value.n == Some(1)
    ensures r.Ok? && "stream" !in obj ==> r.value.stream == Some(false)
    ensures r.Ok? && "stop" !in obj ==> r.value.stop.None?
    ensures r.Ok? && "max_tokens" !in obj ==> r.value.maxTokens.None?
    ensures r.Ok? && "presence_penalty" !in obj ==> r.value.presencePenalty == Some(0.0)
    ensures r.Ok? && "frequency_penalty" !in obj ==> r.value.frequencyPenalty == Some(0.0)
  {
    var model :- Required(obj, "model", AsString);
    var messages :- Required(obj, "messages", AsList(AsOpenAIMessage));
    var temperature :- Optional(obj, "temperature", AsFloat, Some(1.0));
    var topP :- Optional(obj, "top_p", AsFloat, Some(1.0));
    var n :- Optional(obj, "n", AsInt, Some(1));
    var stream :- Optional(obj, "stream", AsBool, Some(false));
    var stop :- Optional(obj, "stop", AsStop, None);
    var maxTokens :- Optional(obj, "max_tokens", AsInt, None);
    var presencePenalty :- Optional(obj, "presence_penalty", AsFloat, Some(0.0));
    var frequencyPenalty :- Optional(obj, "frequency_penalty", AsFloat, Some(0.0));
    var logitBias :- Optional(obj, "logit_bias", AsFloatMap, None);
    var user :- Optional(obj, "user", AsString, None);
    Ok(OpenAIChatRequest(model, messages, temperature, topP, n, stream, stop, maxTokens,
                         presencePenalty, frequencyPenalty, logitBias, user))
  }

  datatype OpenAIUsage = OpenAIUsage(promptTokens: int, completionTokens: int, totalTokens: int)

  /** `OpenAIUsage(**obj)`: the three token counts are required integers. */
  function AsUsage(j: Json): (r: Option<OpenAIUsage>)
    ensures r.Some? <==>
      && j.JObject?
      && FieldOk(j.fields, "prompt_tokens", AsInt, IsRequired)
      && FieldOk(j.fields, "completion_tokens", AsInt, IsRequired)
      && FieldOk(j.fields, "total_tokens", AsInt, IsRequired)
    ensures r.Some? ==>
      && AsInt(j.fields["prompt_tokens"]) == Some(r.value.promptTokens)
      && AsInt(j.fields["completion_tokens"]) == Some(r.value.completionTokens)
      && AsInt(j.fields["total_tokens"]) == Some(r.value.totalTokens)
  {
    if !j.JObject? then None
    else
      var o := j.fields;
      if && "prompt_tokens" in o && o["prompt_tokens"].JInt?
         && "completion_tokens" in o && o["completion_tokens"].JInt?
         && "total_tokens" in o && o["total_tokens"].JInt?
      then Some(OpenAIUsage(o["prompt_tokens"].i, o["completion_tokens"].i, o["total_tokens"].i))
      else None
  }

  datatype OpenAIChoice = OpenAIChoice(index: int, message: OpenAIMessage, finishReason: Option<string>)

  /** `OpenAIChoice(**obj)`: `index` and `message` are required,
      `finish_reason` is optional and absent by default. */
  function AsChoice(j: Json): (r: Option<OpenAIChoice>)
    ensures r.Some? <==>
      && j.JObject?
      && FieldOk(j.fields, "index", AsInt, IsRequired)
      && FieldOk(j.fields, "message", AsOpenAIMessage, IsRequired)
      && FieldOk(j.fields, "finish_reason", AsString, IsOptional)
    ensures r.Some? ==>
      && AsInt(j.fields["index"]) == Some(r.value.index)
      && AsOpenAIMessage(j.fields["message"]) == Some(r.value.message)
    ensures r.Some? ==>
      (r.value.finishReason.Some? <==> "finish_reason" in j.fields && j.fields["finish_reason"] != JNull)
    ensures r.Some? && r.value.finishReason.Some? ==> AsString(j.fields["finish_reason"]) == r.value.finishReason
  {
    if !j.JObject? then None
    else
      var o := j.fields;
      match (Required(o, "index", AsInt), Required(o, "message", AsOpenAIMessage),
             Optional(o, "finish_reason", AsString, None))
      case (Ok(index), Ok(message), Ok(reason)) => Some(OpenAIChoice(index, message, reason))
      case _ => None
  }

  datatype OpenAIChatResponse = OpenAIChatResponse(
    id: string,
    objectKind: string,
    created: int,
    model: string,
    choices: seq<OpenAIChoice>,
    usage: Option<OpenAIUsage>,
    systemFingerprint: Option<string>)

  /** `OpenAIChatResponse(**obj)`: `object` defaults to "chat.completion";
      `usage` and `system_fingerprint` are optional. */
  function DecodeOpenAIChatResponse(obj: map<string, Json>): (r: Result<OpenAIChatResponse, FieldError>)
    ensures r.Ok? <==>
      && FieldOk(obj, "id", AsString, IsRequired)
      && FieldOk(obj, "object", AsString, HasDefault)
      && FieldOk(obj, "created", AsInt, IsRequired)
      && FieldOk(obj, "model", AsString, IsRequired)
      && FieldOk(obj, "choices", AsList(AsChoice), IsRequired)
      && FieldOk(obj, "usage", AsUsage, IsOptional)
      && FieldOk(obj, "system_fingerprint", AsString, IsOptional)
    ensures r.Ok? && "object" !in obj ==> r.value.objectKind == "chat.completion"
    ensures r.Ok? && "usage" !in obj ==> r.value.usage.None?
    ensures r.Ok? && "system_fingerprint" !in obj ==> r.value.systemFingerprint.None?
    ensures r.Ok? ==>
      && AsString(obj["id"]) == Some(r.value.id)
      && AsInt(obj["created"]) == Some(r.value.created)
      && AsString(obj["model"]) == Some(r.value.model)
      && AsList(AsChoice)(obj["choices"]) == Some(r.value.choices)
    ensures r.Ok? ==>
      && Defaulted(obj, "object", AsString, "chat.completion") == Ok(r.value.objectKind)
      && Optional(obj, "usage", AsUsage, None) == Ok(r.value.usage)
      && Optional(obj, "system_fingerprint", AsString, None) == Ok(r.value.systemFingerprint)
  {
    var id :- Required(obj, "id", AsString);
    var objectKind :- Defaulted(obj, "object", AsString, "chat.completion");
    var created :- Required(obj, "created", AsInt);
    var model :- Required(obj, "model", AsString);
    var choices :- Required(obj, "choices", AsList(AsChoice));
    var usage :- Optional(obj, "usage", AsUsage, None);
    var fingerprint :- Optional(obj, "system_fingerprint", AsString, None);
    Ok(OpenAIChatResponse(id, objectKind, created, model, choices, usage, fingerprint))
  }

  // ------------------------------------------- dumping the upstream request

  /** Adds `key` only when the optional value is present, as
      `model_dump(exclude_none=True)` does. */
  function PutSome<T>(obj: map<string, Json>, key: string, v: Option<T>, encode: T -> Json): map<string, Json> {
    if v.Some? then obj[key := encode(v.value)] else obj
  }

  function EncodeObjects(parts: seq<map<string, Json>>): (r: seq<Json>)
    ensures |r| == |parts| && forall i | 0 <= i < |parts| :: r[i] == JObject(parts[i])
  {
    seq(|parts|, i requires 0 <= i < |parts| => JObject(parts[i]))
  }

  function EncodeStrings(texts: seq<string>): (r: seq<Json>)
    ensures |r| == |texts| && forall i | 0 <= i < |texts| :: r[i] == JString(texts[i])
  {
    seq(|texts|, i requires 0 <= i < |texts| => JString(texts[i]))
  }

  function EncodeContent(c: MessageContent): Json {
    match c
    case TextContent(s) => JString(s)
    case PartsContent(parts) => JArray(EncodeObjects(parts))
  }

  function EncodeStop(s: StopSpec): Json {
    match s
    case StopText(text) => JString(text)
    case StopList(texts) => JArray(EncodeStrings(texts))
  }

  function EncodeFloatMap(m: map<string, real>): Json {
    JObject(map k | k in m :: JFloat(m[k]))
  }

  function DumpOpenAIMessage(m: OpenAIMessage): map<string, Json> {
    PutSome(map["role" := JString(m.role), "content" := EncodeContent(m.content)], "name", m.name, s => JString(s))
  }

  function EncodeMessages(ms: seq<OpenAIMessage>): (r: seq<Json>)
    ensures |r| == |ms| && forall i | 0 <= i < |ms| :: r[i] == JObject(DumpOpenAIMessage(ms[i]))
  {
    seq(|ms|, i requires 0 <= i < |ms| => JObject(DumpOpenAIMessage(ms[i])))
  }

  /** The JSON value a request field is dumped as, absent when the field is
      absent. */
  function DumpedField(x: OpenAIChatRequest, key: string): Option<Json> {
    if key == "model" then Some(JString(x.model))
    else if key == "messages" then Some(JArray(EncodeMessages(x.messages)))
    else if key == "temperature" then (if x.temperature.Some? then Some(JFloat(x.temperature.value)) else None)
    else if key == "top_p" then (if x.topP.Some? then Some(JFloat(x.topP.value)) else None)
    else if key == "n" then (if x.n.Some? then Some(JInt(x.n.value)) else None)
    else if key == "stream" then (if x.stream.Some? then Some(JBool(x.stream.value)) else None)
    else if key == "stop" then (if x.stop.Some? then Some(EncodeStop(x.stop.value)) else None)
    else if key == "max_tokens" then (if x.maxTokens.Some? then Some(JInt(x.maxTokens.value)) else None)
    else if key == "presence_penalty" then (if x.presencePenalty.Some? then Some(JFloat(x.presencePenalty.value)) else None)
    else if key == "frequency_penalty" then (if x.frequencyPenalty.Some? then Some(JFloat(x.frequencyPenalty.value)) else None)
    else if key == "logit_bias" then (if x.logitBias.Some? then Some(EncodeFloatMap(x.logitBias.value)) else None)
    else if key == "user" then (if x.user.Some? then Some(JString(x.user.value)) else None)
    else None
  }

  const RequestKeys: set<string> := {"model", "messages", "temperature", "top_p", "n", "stream", "stop",
    "max_tokens", "presence_penalty", "frequency_penalty", "logit_bias", "user"}

  /** `openai_request.model_dump(exclude_none=True)`, the JSON body sent to
      the upstream `/chat/completions` endpoint: every absent field, nested
      ones included, is left out. */
  function DumpOpenAIChatRequest(x: OpenAIChatRequest): (d: map<string, Json>)
    ensures forall k | k in RequestKeys :: (k in d <==> DumpedField(x, k).Some?)
    ensures forall k | k in d :: k in RequestKeys && DumpedField(x, k) == Some(d[k])
  {
    map k | k in RequestKeys && DumpedField(x, k).Some? :: DumpedField(x, k).value
  }

  /** `exclude_none=True` field by field: `model` and `messages` are always
      sent, and every other field is sent exactly when it is set, as its
      own value; nothing outside the declared fields is sent. */
  lemma DumpLeavesOutAbsent(x: OpenAIChatRequest)
    ensures var d := DumpOpenAIChatRequest(x);
      && d.Keys <= RequestKeys
      && "model" in d && d["model"] == JString(x.model)
      && "messages" in d && d["messages"] == JArray(EncodeMessages(x.messages))
      && ("temperature" in d <==> x.temperature.Some?)
      && ("top_p" in d <==> x.topP.Some?)
      && ("n" in d <==> x.n.Some?)
      && ("stream" in d <==> x.stream.Some?)
      && ("stop" in d <==> x.stop.Some?)
      && ("max_tokens" in d <==> x.maxTokens.Some?)
      && ("presence_penalty" in d <==> x.presencePenalty.Some?)
      && ("frequency_penalty" in d <==> x.frequencyPenalty.Some?)
      && ("logit_bias" in d <==> x.logitBias.Some?)
      && ("user" in d <==> x.user.Some?)
      && (x.maxTokens.Some? ==> d["max_tokens"] == JInt(x.maxTokens.value))
      && (x.stop.Some? ==> d["stop"] == EncodeStop(x.stop.value))
      && (x.user.Some? ==> d["user"] == JString(x.user.value))
  {
  }

  /** The request as a reader of its dump sees it: a field left out because
      it was absent comes back with its declared default. */
  function WithDefaults(x: OpenAIChatRequest): OpenAIChatRequest {
    x.(temperature := if x.temperature.None? then Some(1.0) else x.temperature,
       topP := if x.topP.None? then Some(1.0) else x.topP,
       n := if x.n.None? then Some(1) else x.n,
       stream := if x.stream.None? then Some(false) else x.stream,
       presencePenalty := if x.presencePenalty.None? then Some(0.0) else x.presencePenalty,
       frequencyPenalty := if x.frequencyPenalty.None? then Some(0.0) else x.frequencyPenalty)
  }

  lemma ContentRoundTrip(c: MessageContent)
    ensures AsContent(EncodeContent(c)) == Some(c)
  {
    if c.PartsContent? {
      var items := EncodeObjects(c.parts);
      var d := DecodeList(items, AsObject);
      assert d.Some?;
      assert d.value == c.parts;
    }
  }

  lemma StopRoundTrip(s: StopSpec)
    ensures AsStop(EncodeStop(s)) == Some(s)
  {
    if s.StopList? {
      var d := DecodeList(EncodeStrings(s.texts), AsString);
      assert d.Some?;
      assert d.value == s.texts;
    }
  }

  lemma FloatMapRoundTrip(m: map<string, real>)
    ensures AsFloatMap(EncodeFloatMap(m)) == Some(m)
  {
    var fields := EncodeFloatMap(m).fields;
    assert forall k | k in fields :: AsFloat(fields[k]) == Some(m[k]);
    var back := map k | k in fields :: AsFloat(fields[k]).value;
    assert back == m;
  }

  lemma MessageRoundTrip(m: OpenAIMessage)
    ensures AsOpenAIMessage(JObject(DumpOpenAIMessage(m))) == Some(m)
  {
    ContentRoundTrip(m.content);
  }

  lemma MessagesRoundTrip(ms: seq<OpenAIMessage>)
    ensures DecodeList(EncodeMessages(ms), AsOpenAIMessage) == Some(ms)
  {
    var items := EncodeMessages(ms);
    forall i | 0 <= i < |ms|
      ensures AsOpenAIMessage(items[i]) == Some(ms[i])
    {
      MessageRoundTrip(ms[i]);
    }
    var d := DecodeList(items, AsOpenAIMessage);
    assert d.Some?;
    assert d.value == ms;
  }

  /** Reading back the dumped upstream request gives the request itself,
      except that absent fields with a declared default read as that
      default (an absent temperature arrives as 1.0, for instance). */
  lemma DumpRoundTrip(x: OpenAIChatRequest)
    ensures DecodeOpenAIChatRequest(DumpOpenAIChatRequest(x)) == Ok(WithDefaults(x))
  {
    DumpReadsBackRequired(x);
    DumpReadsBackSampling(x);
    DumpReadsBackLimits(x);
  }

  /** The required fields read back from the dump. */
  lemma DumpReadsBackRequired(x: OpenAIChatRequest)
    ensures var d := DumpOpenAIChatRequest(x);
      && Required(d, "model", AsString) == Ok(x.model)
      && Required(d, "messages", AsList(AsOpenAIMessage)) == Ok(x.messages)
  {
    var d := DumpOpenAIChatRequest(x);
    assert Required(d, "model", AsString) == Ok(x.model) by { assert "model" in RequestKeys; }
    MessagesRoundTrip(x.messages);
    assert Required(d, "messages", AsList(AsOpenAIMessage)) == Ok(x.messages) by { assert "messages" in RequestKeys; }
  }

  /** The sampling fields read back from the dump, absent ones as their
      defaults. */
  lemma DumpReadsBackSampling(x: OpenAIChatRequest)
    ensures var d := DumpOpenAIChatRequest(x);
      && Optional(d, "temperature", AsFloat, Some(1.0)) == Ok(WithDefaults(x).temperature)
      && Optional(d, "top_p", AsFloat, Some(1.0)) == Ok(WithDefaults(x).topP)
      && Optional(d, "n", AsInt, Some(1)) == Ok(WithDefaults(x).n)
      && Optional(d, "stream", AsBool, Some(false)) == Ok(WithDefaults(x).stream)
      && Optional(d, "presence_penalty", AsFloat, Some(0.0)) == Ok(WithDefaults(x).presencePenalty)
      && Optional(d, "frequency_penalty", AsFloat, Some(0.0)) == Ok(WithDefaults(x).frequencyPenalty)
  {
    var d := DumpOpenAIChatRequest(x);
    assert Optional(d, "temperature", AsFloat, Some(1.0)) == Ok(WithDefaults(x).temperature) by { assert "temperature" in RequestKeys; }
    assert Optional(d, "top_p", AsFloat, Some(1.0)) == Ok(WithDefaults(x).topP) by { assert "top_p" in RequestKeys; }
    assert Optional(d, "n", AsInt, Some(1)) == Ok(WithDefaults(x).n) by { assert "n" in RequestKeys; }
    assert Optional(d, "stream", AsBool, Some(false)) == Ok(WithDefaults(x).stream) by { assert "stream" in RequestKeys; }
    assert Optional(d, "presence_penalty", AsFloat, Some(0.0)) == Ok(WithDefaults(x).presencePenalty) by { assert "presence_penalty" in RequestKeys; }
    assert Optional(d, "frequency_penalty", AsFloat, Some(0.0)) == Ok(WithDefaults(x).frequencyPenalty) by { assert "frequency_penalty" in RequestKeys; }
  }

  /** The stop, length, bias and user fields read back from the dump. */
  lemma DumpReadsBackLimits(x: OpenAIChatRequest)
    ensures var d := DumpOpenAIChatRequest(x);
      && Optional(d, "stop", AsStop, None) == Ok(x.stop)
      && Optional(d, "max_tokens", AsInt, None) == Ok(x.maxTokens)
      && Optional(d, "logit_bias", AsFloatMap, None) == Ok(x.logitBias)
      && Optional(d, "user", AsString, None) == Ok(x.user)
  {
    var d := DumpOpenAIChatRequest(x);
    if x.stop.Some? { StopRoundTrip(x.stop.value); }
    assert Optional(d, "stop", AsStop, None) == Ok(x.stop) by { assert "stop" in RequestKeys; }
    assert Optional(d, "max_tokens", AsInt, None) == Ok(x.maxTokens) by { assert "max_tokens" in RequestKeys; }
    if x.logitBias.Some? { FloatMapRoundTrip(x.logitBias.value); }
    assert Optional(d, "logit_bias", AsFloatMap, None) == Ok(x.logitBias) by { assert "logit_bias" in RequestKeys; }
    assert Optional(d, "user", AsString, None) == Ok(x.user) by { assert "user" in RequestKeys; }
  }

  // ------------------------------------------------------------ model list

  datatype ModelInfo = ModelInfo(name: string, modifiedAt: string, size: int, digest: string,
                                 details: Option<map<string, Json>>)

  /** `ModelInfo(**obj)`: `name`, `modified_at`, `size` and `digest` are
      required, `details` is an optional object, absent by default. */
  function AsModelInfo(j: Json): (r: Option<ModelInfo>)
    ensures r.Some? <==>
      && j.JObject?
      && FieldOk(j.fields, "name", AsString, IsRequired)
      && FieldOk(j.fields, "modified_at", AsString, IsRequired)
      && FieldOk(j.fields, "size", AsInt, IsRequired)
      && FieldOk(j.fields, "digest", AsString, IsRequired)
      && FieldOk(j.fields, "details", AsObject, IsOptional)
    ensures r.Some? ==>
      && AsString(j.fields["name"]) == Some(r.value.name)
      && AsString(j.fields["modified_at"]) == Some(r.value.modifiedAt)
      && AsInt(j.fields["size"]) == Some(r.value.size)
      && AsString(j.fields["digest"]) == Some(r.value.digest)
    ensures r.Some? ==>
      (r.value.details.Some? <==> "details" in j.fields && j.fields["details"] != JNull)
    ensures r.Some? && r.value.details.Some? ==> AsObject(j.fields["details"]) == r.value.details
  {
    if !j.JObject? then None
    else
      var o := j.fields;
      match (Required(o, "name", AsString), Required(o, "modified_at", AsString), Required(o, "size", AsInt),
             Required(o, "digest", AsString), Optional(o, "details", AsObject, None))
      case (Ok(name), Ok(modifiedAt), Ok(size), Ok(digest), Ok(details)) =>
        Some(ModelInfo(name, modifiedAt, size, digest, details))
      case _ => None
  }

  datatype ModelsResponse = ModelsResponse(models: seq<ModelInfo>)

  function DecodeModelsResponse(obj: map<string, Json>): (r: Result<ModelsResponse, FieldError>)
    ensures r.Ok? <==> FieldOk(obj, "models", AsList(AsModelInfo), IsRequired)
    ensures r.Ok? ==> obj["models"].JArray? && |r.value.models| == |obj["models"].items|
    ensures r.Ok? ==> forall i | 0 <= i < |r.value.models| :: AsModelInfo(obj["models"].items[i]) == Some(r.value.models[i])
  {
    var models :- Required(obj, "models", AsList(AsModelInfo));
    Ok(ModelsResponse(models))
  }
}
