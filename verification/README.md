# ollama_openai proxy core, modelled in Dafny

The proxy accepts Ollama-style requests (`/api/generate`, `/api/chat`,
`/api/embeddings`), translates them into OpenAI-style requests for an
upstream server, and translates the answers back. This project models its
core as pure functions over immutable datatypes and proves properties of
that model:

- `translator_base.dfy`: the part shared by every translator. It covers the
  model-name mapping with a fallback to the name itself, and the
  Ollama-to-OpenAI option normalisation.
- `chat_upstream.dfy`, `chat_handlers.dfy`: the non-streaming chat call and
  the `generate`/`chat` endpoints. This is where every error kind gets its
  HTTP status.
- `stream_bridge.dfy`: the server-sent-event to NDJSON bridge. Chunks are
  split into lines. Blank lines are skipped. The `data: [DONE]` sentinel
  closes the stream. Only `data: ` lines are parsed. A data line whose
  translation raises `json.JSONDecodeError` is skipped; the sentinel has
  no such protection.
- `embeddings_router.dfy`: the embeddings endpoint. It records which steps
  ran in which order, and it uses its own status mapping.
- `config.py` as `config.dfy`: the setting defaults, the log-level
  validator and the rewrite that makes the base URL end in `/v1`.
- `ring_buffer.dfy`, `metrics_collector.dfy`: the circular metrics buffer,
  the collector's counters, and the integer counts of the metrics summary.
- `models.dfy`: the wire records of both dialects. It covers their
  defaults, how a JSON object is decoded into each record, and how the
  upstream request is dumped and read back.
- `test_helpers.dfy`: the retry loop and the structural checks used by
  the SDK test-suite.
- `wrappers.dfy`, `json_value.dfy`, `text.dfy`: Option/Result, decoded
  JSON values, and the Python `str` operations the code relies on
  (`split`, `rstrip`, `strip`, `upper`, slicing).

Collaborators the model cannot see become function parameters:

- the upstream call, which returns a response or the exception it raised;
- the JSON parser and serialiser;
- the concrete translators;
- the model-name validator.

## Model

| member | source | states |
|---|---|---|
| TranslatorBase.Translator.MapModelName | src/translators/base.py:51-61 | a name in the mapping is replaced by its mapped value, any other name is returned unchanged; the result is always the name itself or one of the mapping's values |
| TranslatorBase.NewTranslator | src/translators/base.py:16-23 | a missing mapping is the empty mapping; a given mapping is kept as is |
| TranslatorBase.UnmappedIsIdentity | src/translators/base.py:16-23 | a translator built without a mapping maps every model name to itself |
| TranslatorBase.ExtractOptions | src/translators/base.py:63-90 | a missing or empty options dict gives no options; otherwise only temperature, top_p, top_k, max_tokens and stop can appear, each exactly when its Ollama source key is present, with the value copied unchanged |
| TranslatorBase.NumPredictBecomesMaxTokens | src/translators/base.py:85-86 | `num_predict` never survives normalisation; `max_tokens` is present exactly when `num_predict` was, and carries its value |
| TranslatorBase.NormaliseTwiceDropsMaxTokens | src/translators/base.py:79-90 | normalisation is not idempotent: normalising an already normalised dict loses `max_tokens` |
| ChatUpstream.ChatFailureFault | src/routers/chat.py:93-107 | a timeout becomes the 504 upstream error "Request timeout" naming the configured timeout, a network error the 502 upstream error "HTTP request failed: " followed by the exception's text, and every other exception escapes unchanged |
| ChatUpstream.CheckChatCall | src/routers/chat.py:73-91 | a 200 response is passed on untouched; any other status becomes an upstream error with that same status, the message "OpenAI backend returned error" and an excerpt that is the first 500 characters of the body (the whole body when it is shorter) |
| ChatHandlers.CompletionError | src/routers/chat.py:334-357 | validation and translation errors are 400 (the latter with detail "Translation error: " and the message), an upstream error keeps its own status with detail "Upstream error: " and the message, and anything else is 500 "Internal server error" |
| ChatHandlers.ReadChatResponse | src/routers/chat.py:322-323 | the body is accepted exactly when it parses, is a JSON object and decodes as an `OpenAIChatResponse`; any failure is an ordinary exception |
| ChatHandlers.HandleCompletion | src/routers/chat.py:300-357 | a failed translation is answered with its mapped error; a streaming reply comes exactly for a translated request whose own `stream` field is set, carrying the translated request; a non-streaming request is answered from what the upstream call returned (`ReplyToCall`) |
| ChatHandlers.ReplyToCall | src/routers/chat.py:73-107 | with the handler's error table (src/routers/chat.py:334-357): a non-200 status is answered with that status and "Upstream error: OpenAI backend returned error", a timeout with 504 "Upstream error: Request timeout", a network error with 502 and its text, any other exception with 500; after a 200 the body decides (`ReplyToBody`); a JSON reply comes exactly when the call returned 200, the body was read and the response translated |
| ChatHandlers.ReplyToBody | src/routers/chat.py:320-357 | an unreadable 200 body is answered 500 "Internal server error"; a failed translation back is answered with its own mapped error; otherwise the reply is the translated body |
| ChatHandlers.NoCallBeforeTranslation | src/routers/chat.py:300-313 | when translation fails or the request's `stream` field is set, the reply does not depend on the upstream call at all |
| StreamBridge.StepLine | src/routers/chat.py:133-166 | a blank line does nothing; exactly `data: [DONE]` ends the stream with the translator's closing event as its only event (none when falsy), and a translator exception there aborts the stream; a `data: ` line is parsed after the six-character prefix, skipped if unparsable, else translated and emitted when truthy, skipped when the translator raises `json.JSONDecodeError`, and aborts on any other exception; any other line is ignored |
| StreamBridge.RunLines | src/routers/chat.py:133-166 | processing the lines of a chunk keeps the closing event last, and a run that terminated did so with the translator's closing event |
| StreamBridge.RunStream | src/routers/chat.py:110-185 | the same two guarantees over the whole stream, including transport exceptions classified as in the non-streaming call |
| StreamBridge.Render | src/routers/chat.py:144-159 | the lines sent are, in order, each event serialised and followed by a newline, up to the first event `json.dumps` cannot serialise, where the response ends with an exception; it is complete exactly when every event serialises |
| StreamBridge.RenderAppend | src/routers/chat.py:144-159 | the text sent for events `a + b` is the text for `a`, followed by the text for `b` only when every event of `a` serialised |
| StreamBridge.SentAppend | src/routers/chat.py:125-159 | the text sent for chunks `a + b`, when `a` did not end the stream, is the text sent for `a` followed by the text sent for `b`: the response is the per-chunk outputs laid end to end |
| StreamBridge.ThenWellFormed | src/routers/chat.py:137-146 | running one part of the input after another keeps the closing event last |
| StreamBridge.LinesAppend | src/routers/chat.py:133-146 | the lines `a + b` are processed as `a`, then `b` only if `a` did not end the stream |
| StreamBridge.StreamAppend | src/routers/chat.py:125-146 | the same for the sequence of chunks read from upstream |
| StreamBridge.NothingAfterEnd | src/routers/chat.py:137-146 | once the sentinel or an exception has ended the stream, later chunks change nothing |
| StreamBridge.StreamIsLinesOfChunks | src/routers/chat.py:125-133 | a stream that raises nothing behaves like the lines of all its chunks, each chunk split on its own, laid end to end |
| StreamBridge.LinesTerminateOnlyAtSentinel | src/routers/chat.py:137-146 | processing lines ends normally only if one of them is exactly the sentinel |
| StreamBridge.StreamTerminatesOnlyAtSentinel | src/routers/chat.py:131-146 | the stream ends normally only if some chunk, split on its own, has a line that is exactly the sentinel |
| StreamBridge.NoSentinelNoTermination | src/routers/chat.py:131-146 | a stream none of whose chunks has a line that is exactly the sentinel never ends normally |
| StreamBridge.SplitSentinelNotRecognised | src/routers/chat.py:131-137 | a sentinel split across two chunks, at any point, does not end the stream |
| StreamBridge.CrLfSentinelNotRecognised | src/routers/chat.py:133-137 | a sentinel line that keeps its `\r` does not end the stream |
| StreamBridge.DataWithoutSpaceIgnored | src/routers/chat.py:148 | a `data:` line without the space after the colon is ignored |
| EmbeddingsRouter.CheckEmbeddingCall | src/routers/embeddings.py:69-105 | a 200 response is passed on; any other status becomes the upstream error "OpenAI embedding backend returned error" with that status and the first 500 characters of the body (the whole body when it is shorter); a timeout is the 504 error "Embedding request timeout", only a connect error is the 502 error "Cannot connect to OpenAI backend", and every other exception escapes unchanged |
| EmbeddingsRouter.EmbeddingError | src/routers/embeddings.py:176-215 | a rejected request is 422, a failed translation 500 "Failed to process embedding request", an upstream error keeps its status and message, anything else 500 |
| EmbeddingsRouter.HandleEmbeddings | src/routers/embeddings.py:134-215 | the model name validated is the request's own `model`; the steps run form a prefix of validate, translate, call, read, translate back; upstream is called exactly when validation and translation succeed; a failed call is answered with its mapped error; an unreadable body is 502 "Invalid response from OpenAI backend"; after a readable body the reply is the translated body or the mapped error of a failed translation back; a result comes back exactly when every step succeeded |
| EmbeddingsRouter.NetworkErrorsDiffer | src/routers/embeddings.py:96-105 | a read, write or close error reaches a chat client as 502 but an embeddings client as 500 |
| EmbeddingsRouter.TimeoutAndConnectAgree | src/routers/embeddings.py:89-102 | timeouts and connect errors get the same status from both routers |
| Config.ValidateLogLevel | src/config.py:51-57 | accepted exactly when the upper-cased value is one of DEBUG, INFO, WARNING, ERROR, CRITICAL, and the accepted value is the upper-cased one |
| Config.LogLevelIdempotent | src/config.py:51-57 | validating an accepted level again gives the same level |
| Config.LogLevelCaseInsensitive | src/config.py:55-57 | two spellings that differ only in case are treated alike |
| Config.DotlessIAccepted | src/config.py:55-57 | Python's `upper()` maps the dotless ı to I, so "ınfo" is accepted as INFO |
| Config.ValidateBaseUrl | src/config.py:59-64 | a non-string value and a string already ending in `/v1` pass through unchanged; any other string loses its trailing slashes and gains `/v1`, so a string result always ends in `/v1` |
| Config.BaseUrlIdempotent | src/config.py:59-64 | rewriting a rewritten base URL changes nothing |
| Config.TrailingSlashAfterV1 | src/config.py:62-63 | "https://api.test.com/v1/" becomes "https://api.test.com/v1/v1" |
| Config.LoadSettings | src/config.py:12-64 | settings load exactly when the base URL and the API key are set and a given log level is valid; each missing required variable and an invalid level are reported; an unset setting takes its default (port 11434, level INFO, timeout 60, 3 retries, no mapping file, debug off) and a set one its own value, the log level upper-cased; the base URL is kept when it ends in `/v1` and otherwise loses its trailing slashes and gains `/v1` |
| Config.SettingsErrors | src/config.py:12-57 | no problem is reported exactly when both required variables are set and a given log level is valid; each missing one is reported, and an invalid level is reported last |
| Config.ReloadIsStable | src/config.py:12-64 | an environment that spells out loaded settings loads as exactly those settings |
| RingBuffer.Ring.Append | src/utils/metrics.py:62-69 | below capacity the item is added at the end and the write index is kept; at capacity the slot at the write index is overwritten, every other slot kept, the index advanced modulo the capacity and the full flag set; the ring invariant is preserved |
| RingBuffer.Ring.GetAll | src/utils/metrics.py:71-77 | as many items as are stored, the buffer itself while not full |
| RingBuffer.GetAllPermutes | src/utils/metrics.py:71-77 | the chronological read-out is a permutation of the stored items |
| RingBuffer.Ring.Size | src/utils/metrics.py:79-81 | the size never exceeds the capacity |
| RingBuffer.Ring.IsFull | src/utils/metrics.py:83-85 | a full buffer is at capacity, and a buffer that is not full stores its items oldest first |
| RingBuffer.NewRing | src/utils/metrics.py:56-60 | a new buffer is empty, not full, and valid for a capacity of at least 1 |
| RingBuffer.DefaultKeepsLastThousand | src/utils/metrics.py:56-85 | a buffer with the default capacity keeps the last 1000 items appended, oldest first, and is full only after 1001 appends |
| RingBuffer.AppendQueue | src/utils/metrics.py:62-77 | seen through `get_all`, an append pushes onto a bounded queue: the new item goes last and, at capacity, the oldest item drops off the front |
| RingBuffer.OverwriteRotates | src/utils/metrics.py:66-77 | overwriting the slot at the write index and advancing it drops the oldest item of the rotation and adds the new one last |
| RingBuffer.AppendAllContents | src/utils/metrics.py:62-77 | after appending items to any valid ring, `get_all` is the last `max_size` items of the old contents followed by the new items |
| RingBuffer.AppendAllSize | src/utils/metrics.py:62-85 | the size grows up to the capacity, and the ring is full exactly when it was or when something was overwritten |
| RingBuffer.Chronological | src/utils/metrics.py:56-85 | from an empty buffer, `get_all` is the last min(n, max_size) appended items, oldest first; `size` is min(n, max_size); `is_full` holds only after more than max_size appends |
| MetricsCollector.DefaultMetricCountsAsFailed | src/utils/metrics.py:28-38 | a metric recorded with the dataclass defaults carries no error, yet its status 0 makes the summary count it as failed (src/utils/metrics.py:146-148) |
| MetricsCollector.NewCollector | src/utils/metrics.py:99-105 | a new collector has an empty buffer, both counters 0, and satisfies the collector invariant |
| MetricsCollector.DefaultCollectorKeepsLastThousand | src/utils/metrics.py:99-111 | the collector built with the default capacity keeps the last 1000 recorded metrics in order while counting every one |
| MetricsCollector.RecordRequest | src/utils/metrics.py:107-111 | the metric becomes the newest buffered one (the oldest dropped at capacity), the total grows by exactly one, and the invariant tying buffer size and fullness to the total is kept |
| MetricsCollector.IncrementActive | src/utils/metrics.py:122-125 | the active count grows by one and nothing else changes |
| MetricsCollector.DecrementActive | src/utils/metrics.py:127-130 | the active count drops by one but never below zero, and nothing else changes |
| MetricsCollector.Reset | src/utils/metrics.py:257-263 | both counters are zero and the buffer is empty, not full, with the same capacity |
| MetricsCollector.RecordAllAppends | src/utils/metrics.py:107-111 | recording a sequence of metrics appends each to the buffer in order and adds their number to the total |
| MetricsCollector.RecordAllHistory | src/utils/metrics.py:107-111 | recording a sequence of metrics keeps the last `max_metrics` of them after the old ones, oldest first, and adds their number to the total |
| MetricsCollector.CountSuccess | src/utils/metrics.py:147 | the successful count is at most the total; it equals the total exactly when every status is 2xx and is zero exactly when none is |
| MetricsCollector.CountSuccessAppend | src/utils/metrics.py:147 | the successful count of a concatenated history is the sum of the counts of its parts |
| MetricsCollector.AddTo | src/utils/metrics.py:161-177 | adding a metric creates an entry at the end only for a new key, keeps every existing entry's key in place, and adds one to the sum of the counts |
| MetricsCollector.AddToLookup | src/utils/metrics.py:163-177 | adding a metric bumps its own key's entry, starting from a zero entry when the key is new, and leaves every other key's entry alone |
| MetricsCollector.AddToDistinct | src/utils/metrics.py:164-170 | no key is ever stored twice |
| MetricsCollector.Group | src/utils/metrics.py:161-177 | the per-endpoint counts add up to the number of metrics |
| MetricsCollector.StatsStep | src/utils/metrics.py:172-177 | one more metric under a key bumps the count by one, the errors by one when the error is truthy, and adds its model when non-empty |
| MetricsCollector.GroupLookup | src/utils/metrics.py:161-177 | each key's entry holds exactly the count, the error count and the non-empty model set of the metrics under that key, and a key has an entry exactly when some metric carries it |
| MetricsCollector.GroupDistinct | src/utils/metrics.py:161-170 | the grouping has no key twice |
| MetricsCollector.GetSummary | src/utils/metrics.py:132-214 | the "no metrics" answer comes exactly when nothing was ever recorded; otherwise the buffered total is min(global total, capacity), successful + failed = total, the per-endpoint counts add up to the total with no key twice, and the buffer fields agree with the global total |
| MetricsCollector.SummaryEndpoint | src/utils/metrics.py:160-184 | each endpoint entry of the summary describes exactly the buffered metrics under its key |
| Models.Required | src/models.py:13-14 | a required field is read exactly when it is present and decodes |
| Models.Defaulted | src/models.py:16-21 | a missing defaulted field takes its default |
| Models.Optional | src/models.py:15-20 | a missing optional field takes its default and an explicit null reads as absent |
| Models.DecodeList | src/models.py:36 | a list decodes exactly when every element does, keeping length and order |
| Models.DecodeGenerateRequest | src/models.py:10-21 | decoding succeeds exactly when model and prompt are strings and every given optional field has its type; every given value is kept in the record (null as absent); stream defaults to true, raw to false, and the other five fields to absent |
| Models.DecodeOllamaMessage | src/models.py:24-29 | role and content are required strings carried into the record unchanged; given images are kept, and images defaults to absent |
| Models.DecodeChatRequest | src/models.py:32-39 | model and messages are required, and model, a given stream, options and template are kept; stream defaults to true, options and template to absent, and every message is the decoding of the input list's element at the same position |
| Models.DecodeGenerateResponse | src/models.py:42-55 | the four leading fields are required and carried unchanged; a given context and each given timing and count field is kept, and each defaults to absent |
| Models.DecodeOpenAIMessage | src/models.py:59-64 | role and content (a string or a list of part records) are carried unchanged; a given name is kept, and name defaults to absent |
| Models.DecodeOpenAIChatRequest | src/models.py:67-81 | temperature and top_p default to 1.0, n to 1, stream to false, both penalties to 0.0, stop and max_tokens to absent |
| Models.AsUsage | src/models.py:92-97 | a usage record decodes exactly when the three token counts are present integers, and carries those counts |
| Models.AsChoice | src/models.py:84-89 | a choice decodes exactly when index is an integer, message a message record and finish_reason absent, null or a string; finish_reason is present exactly when given non-null |
| Models.DecodeOpenAIChatResponse | src/models.py:100-109 | id, created, model and the decoded choices list are carried unchanged, and given object, usage and system_fingerprint values are kept; `object` defaults to "chat.completion", usage and system_fingerprint to absent |
| Models.AsModelInfo | src/models.py:113-120 | a model record decodes exactly when name, modified_at and digest are strings and size an integer, and details is absent, null or an object; details is present exactly when given non-null |
| Models.DecodeModelsResponse | src/models.py:123-126 | decoding succeeds exactly when `models` is a list of model records, and each entry is the decoding of the input list's element at the same position |
| Models.DumpLeavesOutAbsent | src/models.py:67-81 | `model_dump(exclude_none=True)` field by field: model and messages are always sent, every other field exactly when it is set, and nothing outside the declared fields |
| Models.ContentRoundTrip | src/models.py:63 | dumped message content reads back as itself |
| Models.StopRoundTrip | src/models.py:76 | dumped stop sequences read back as themselves |
| Models.FloatMapRoundTrip | src/models.py:80 | a dumped logit-bias map reads back as itself |
| Models.MessageRoundTrip | src/models.py:59-64 | a dumped message reads back as itself |
| Models.MessagesRoundTrip | src/models.py:71 | a dumped message list reads back as itself |
| Models.DumpReadsBackRequired | src/models.py:70-71 | the model and the messages read back from the dump unchanged |
| Models.DumpReadsBackSampling | src/models.py:72-79 | temperature, top_p, n, stream and both penalties read back from the dump, absent ones as their declared defaults |
| Models.DumpReadsBackLimits | src/models.py:76-81 | stop, max_tokens, logit_bias and user read back from the dump unchanged, absent ones as absent |
| Models.DumpRoundTrip | src/models.py:67-81 | reading back a dumped upstream request gives the request, with every field that the dump left out restored to its default |
| TestHelpers.RetryWithDefaults | ollama_sdk_test/utils/test_helpers.py:28-62 | with the default arguments: one to three calls; the run fails exactly when all three calls raise, and then it paused twice and re-raises the third exception |
| TestHelpers.RetryOnFailure | ollama_sdk_test/utils/test_helpers.py:28-62 | at most `max_retries` calls; every call before the last raised a caught exception; the result is the first value returned; an exception escapes when it is not caught or the attempts ran out; one pause between consecutive attempts; no attempt and nothing to raise when `max_retries <= 0` |
| TestHelpers.PyIndex | ollama_sdk_test/utils/test_helpers.py:218 | an index is valid exactly from -len to len-1, and a negative one counts from the end |
| TestHelpers.Subscript | ollama_sdk_test/utils/test_helpers.py:218 | lists and strings index Python-style, out of range is an IndexError, a dict raises KeyError, anything else TypeError |
| TestHelpers.ExtractEmbedding | ollama_sdk_test/utils/test_helpers.py:206-224 | the batch format wins when both keys are present; the single format accepts only index 0; a response with neither key is rejected |
| TestHelpers.CheckVector | ollama_sdk_test/utils/test_helpers.py:84-87 | a vector passes exactly when it is a non-empty list of numbers (booleans included), and a failure is the first of the checks list, non-empty, numbers that fails (`FirstDefect`) |
| TestHelpers.ValidateEmbeddingResponse | ollama_sdk_test/utils/test_helpers.py:65-99 | a response passes exactly when it has exactly the expected number of valid vectors under "embeddings", or (without that key) one valid vector under "embedding" when one is expected; a wrong count under "embeddings" is reported before any element; a bad vector is reported with its index (the first bad one) and its first failing check |
| TestHelpers.DefaultsExtractTheVector | ollama_sdk_test/utils/test_helpers.py:65-99 | with both helpers' default arguments (`expected_count=1`, `index=0`, lines 65 and 206), an accepted response in either format gives its one vector to the extractor |
| TestHelpers.AcceptedIsExtractable | ollama_sdk_test/utils/test_helpers.py:206-224 | in an accepted response, every index from -n to n-1 (only 0 for the single format) extracts a valid vector |
| TestHelpers.IsValidModelListResponse | ollama_sdk_test/utils/test_helpers.py:176-203 | true exactly when the response is a dict whose "models" is a list of dicts each holding "name" |
| TestHelpers.DecodedModelListIsValid | ollama_sdk_test/utils/test_helpers.py:176-203 | every body that decodes as a `ModelsResponse` passes the model-list check |
| Text.Split | src/routers/chat.py:133 | `str.split` on one character gives at least one piece and no piece holds the separator |
| Text.JoinSplit | src/routers/chat.py:133 | joining the pieces of a split gives back the original text |
| Text.SplitJoin | src/routers/chat.py:133 | splitting a join of separator-free pieces gives back the pieces |
| Text.RStrip | src/config.py:63 | `rstrip('/')` keeps a prefix that does not end in '/' and removes only slashes |
| Text.Truncate | src/routers/chat.py:88 | `text[:500]` is a prefix of at most 500 characters, the whole text when it is shorter |
| Text.UpperIdempotent | src/config.py:55-57 | upper-casing twice is upper-casing once |

## Left out

- The HTTP client and its retry layer (`src/utils/http_client.py`) are not part of this model. The upstream call is a parameter that returns either a response or the exception it raised.
- The concrete chat and embeddings translators, the model-name validator, `json.loads` and `json.dumps` are parameters. Their logic is not part of this model.
- Logging, request IDs, response headers and media types are not modelled. The event-stream `StreamingResponse` wrapper is reduced to the events it would yield.
- The `asyncio.Lock` is not modelled: every collector operation is atomic and runs sequentially.
- Durations, averages, percentiles, success and error rates, timestamps, uptime, the Prometheus text, `track_request` and the global collector singleton are left out. They are floating point, clocks or process-global state.
- `calculate_cosine_similarity`, `assert_embeddings_similar`/`_different`, `measure_response_time`, `create_test_client` and `generate_test_image_base64` are left out. They need numpy/sklearn, a clock, a network client or image encoding.
- The parsing of `OPENAI_API_BASE_URL` into a pydantic `HttpUrl` after the `/v1` rewrite is not modelled. Config.LoadSettings keeps the rewritten string.
- Models.DecodeOpenAIChatRequest: like every decoder in `models.dfy`, it reports one failing field rather than pydantic's list of all of them. It is strict-typed and does not model pydantic's lax coercions, such as a numeric string accepted as an int.
- RingBuffer.Ring.Append: requires a capacity of at least 1. With capacity 0 the source raises IndexError on the first append, and that exception is not modelled.
- MetricsCollector.NewCollector: requires `max_metrics >= 1` for the same reason.
- MetricsCollector.GetSummary: states only the integer counts. The float statistics and the order of the `endpoints` dict are not stated. Keys in `Group` are created in order of first appearance, but no lemma states that.
- TestHelpers.ValidateEmbeddingResponse: returns which check failed rather than the assertion's message text. Python `assert` statements removed under `-O` are not modelled.
- Config.LoadSettings: takes each environment variable already parsed as an int, a bool or a string. The rejection of a `PROXY_PORT`, `REQUEST_TIMEOUT`, `MAX_RETRIES` or `DEBUG` value that pydantic cannot parse is not modelled.
- The source's default arguments are named constants (`RingBuffer.DefaultMaxSize`, `MetricsCollector.DefaultMaxMetrics`, `TestHelpers.DefaultMaxRetries`, `TestHelpers.CatchEvery`, `TestHelpers.DefaultIndex`, `TestHelpers.DefaultExpectedCount`); a call that leaves an argument out is the call with its constant. The `delay` of `retry_on_failure` only sets how long each pause lasts, and durations are not modelled.
- StreamBridge.RunStream: a chunk that is not valid UTF-8 is modelled as a failed read (`OtherFailure`), since `bytes.decode` raises there.

## Where the code and its description differ

The model follows the code in each of these cases:

- `extract_options` copies `top_k` (src/translators/base.py:83-84), although OpenAI has no such parameter.
- A base URL ending in `/v1/` does not end in `/v1`, so it becomes `.../v1/v1`. This is `Config.TrailingSlashAfterV1`.
- The API key is not trimmed. Numeric settings carry no range checks, and neither do the request records.
- The routers catch a `ValidationError` and pass `service=`/`details=` keywords to `UpstreamError`. The exceptions module in this version of the code defines neither the class nor those keywords, and the embeddings router reads `e.message`, which that module never sets. The error kinds are modelled as an abstract `Fault`, with the status mapping the routers evidently intend.
- Only `data: ` with one space is recognised (`StreamBridge.DataWithoutSpaceIgnored`). A sentinel with a trailing `\r` or one split across chunks does not end the stream.
