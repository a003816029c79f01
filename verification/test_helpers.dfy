/** The SDK test-suite helpers: a bounded retry loop and structural checks
    and selectors over embedding and model-list responses. */
module TestHelpers {
  import opened Wrappers
  import opened JsonValue
  import opened Models

  // ---------------------------------------------------------------------
  // retry_on_failure

  /** What one call of the retried function did. */
  datatype Attempt<T, E> = Returned(value: T) | Threw(error: E)

  /** How the retry loop ended: with the function's value, by re-raising
      an exception, or (when no attempt was made) with `raise None`, which
      Python itself rejects. */
  datatype RetryOutcome<T, E> = Succeeded(value: T) | Raised(error: E) | NothingToRaise

  /** `retry_on_failure`'s default `max_retries`. */
  const DefaultMaxRetries := 3

  /** `retry_on_failure`'s default `exceptions=(Exception,)`: every
      exception the retried function raises is caught. */
  predicate CatchEvery<E>(e: E) {
    true
  }

  /** `retry_on_failure`. The retried function is stateful, so `call(k)`
      is what attempt `k` (counted from 0) does; `caught` is membership in
      the `exceptions` tuple. Returns the outcome, the number of calls made
      and the number of `time.sleep(delay)` pauses taken. */
  method RetryOnFailure<T, E>(call: nat -> Attempt<T, E>, caught: E -> bool, maxRetries: int)
    returns (outcome: RetryOutcome<T, E>, calls: nat, sleeps: nat)
    // no attempt at all when max_retries is not positive
    ensures maxRetries <= 0 ==> calls == 0 && outcome.NothingToRaise?
    ensures 0 < maxRetries ==> 1 <= calls <= maxRetries && !outcome.NothingToRaise?
    // every attempt before the last one threw an exception the loop catches
    ensures forall k | 0 <= k < calls - 1 :: call(k).Threw? && caught(call(k).error)
    // the first value returned is the result
    ensures outcome.Succeeded? ==> call(calls - 1) == Returned(outcome.value)
    // an exception escapes when it is not caught or the attempts ran out
    ensures outcome.Raised? ==>
      && call(calls - 1) == Threw(outcome.error)
      && (!caught(outcome.error) || calls == maxRetries)
    // one pause between consecutive attempts, none after the last
    ensures sleeps == if calls == 0 then 0 else calls - 1
  {
    outcome, calls, sleeps := NothingToRaise, 0, 0;
    var attempt := 0;
    while attempt < maxRetries
      invariant 0 <= attempt && (maxRetries <= 0 ==> attempt == 0) && (0 < maxRetries ==> attempt <= maxRetries)
      invariant calls == attempt
      invariant sleeps == if 0 < attempt == maxRetries then attempt - 1 else attempt
      invariant forall k | 0 <= k < attempt :: call(k).Threw? && caught(call(k).error)
      invariant attempt == 0 ==> outcome.NothingToRaise?
      invariant 0 < attempt ==> outcome == Raised(call(attempt - 1).error)
    {
      calls := calls + 1;
      match call(attempt)
      case Returned(v) =>
        return Succeeded(v), calls, sleeps;
      case Threw(e) =>
        if !caught(e) {
          return Raised(e), calls, sleeps;
        }
        outcome := Raised(e);
        if attempt < maxRetries - 1 {
          sleeps := sleeps + 1;
        }
      attempt := attempt + 1;
    }
  }

  /** `retry_on_failure(func)` with every argument at its default: at most
      three calls; the run fails exactly when all three calls raise, and
      then it has paused twice and re-raises the third exception. */
  method RetryWithDefaults<T, E>(call: nat -> Attempt<T, E>)
    returns (outcome: RetryOutcome<T, E>, calls: nat, sleeps: nat)
    ensures 1 <= calls <= DefaultMaxRetries && !outcome.NothingToRaise?
    ensures outcome.Succeeded? ==> call(calls - 1) == Returned(outcome.value)
    ensures outcome.Raised? <==> forall k | 0 <= k < DefaultMaxRetries :: call(k).Threw?
    ensures outcome.Raised? ==> outcome.error == call(2).error && calls == 3 && sleeps == 2
  {
    outcome, calls, sleeps := RetryOnFailure(call, CatchEvery, DefaultMaxRetries);
  }

  // ---------------------------------------------------------------------
  // Python indexing

  /** The position `xs[index]` reads in a sequence of length `len`, with
      negative indices counting from the end; None is an IndexError. */
  function PyIndex(len: nat, index: int): (r: Option<nat>)
    ensures r.Some? <==> 0 <= len + index && index < len
    ensures r.Some? ==> r.value < len && (r.value == index || r.value == len + index)
    ensures r.Some? && 0 <= index ==> r.value == index
  {
    if 0 <= index < len then Some(index)
    else if 0 <= len + index && index < 0 then Some(len + index)
    else None
  }

  // ---------------------------------------------------------------------
  // extract_embedding

  /** The exception `extract_embedding` raises. */
  datatype ExtractError =
    | IndexError            // list or string index out of range
    | KeyError              // indexing a dict with an integer
    | TypeError             // the value cannot be indexed
    | OldFormatIndex        // ValueError: old format only supports single embeddings
    | NoEmbedding           // ValueError: no embedding found in response

  /** `value[index]` for a decoded JSON value: lists and strings accept
      indices from -len to len-1, a dict has no integer keys, and nothing
      else can be indexed. */
  function Subscript(value: Json, index: int): (r: Result<Json, ExtractError>)
    ensures r.Ok? <==>
      || (value.JArray? && -|value.items| <= index < |value.items|)
      || (value.JString? && -|value.s| <= index < |value.s|)
    ensures r.Ok? && value.JArray? ==>
      r.value == value.items[if index < 0 then |value.items| + index else index]
    ensures r.Ok? && value.JString? ==>
      r.value == JString([value.s[if index < 0 then |value.s| + index else index]])
    ensures r.Err? ==>
      r.error == (if value.JArray? || value.JString? then IndexError
                  else if value.JObject? then KeyError
                  else TypeError)
  {
    match value
    case JArray(items) =>
      var k := PyIndex(|items|, index);
      if k.Some? then Ok(items[k.value]) else Err(IndexError)
    case JString(s) =>
      var k := PyIndex(|s|, index);
      if k.Some? then Ok(JString([s[k.value]])) else Err(IndexError)
    case JObject(_) => Err(KeyError)
    case _ => Err(TypeError)
  }

  /** `extract_embedding`'s default `index`. */
  const DefaultIndex := 0

  /** `extract_embedding`: the new batch format wins when both keys are
      present; the old single format accepts only index 0. */
  function ExtractEmbedding(response: map<string, Json>, index: int): (r: Result<Json, ExtractError>)
    ensures "embeddings" in response ==> r == Subscript(response["embeddings"], index)
    ensures "embeddings" !in response && "embedding" in response ==>
      r == (if index == 0 then Ok(response["embedding"]) else Err(OldFormatIndex))
    ensures "embeddings" !in response && "embedding" !in response ==> r == Err(NoEmbedding)
  {
    if "embeddings" in response then Subscript(response["embeddings"], index)
    else if "embedding" in response then
      if index != 0 then Err(OldFormatIndex) else Ok(response["embedding"])
    else Err(NoEmbedding)
  }

  // ---------------------------------------------------------------------
  // validate_embedding_response

  /** Why one embedding vector is rejected, in the order it is checked. */
  datatype Defect = NotAList | EmptyVector | NonNumeric

  /** Why a response is rejected (the assertion that fails). */
  datatype Violation =
    | EmbeddingsNotList
    | WrongCount(expected: int, got: nat)
    | BadEmbedding(index: nat, defect: Defect)
    | OldFormatBatch
    | BadSingleEmbedding(defect: Defect)
    | MissingFields

  /** One embedding vector: a non-empty list of numbers (booleans count as
      numbers in Python). */
  predicate IsVector(j: Json) {
    j.JArray? && |j.items| > 0 && forall k | 0 <= k < |j.items| :: IsNumber(j.items[k])
  }

  /** The response shapes `validate_embedding_response` accepts: a batch of
      exactly `expected` vectors under "embeddings", or, without that key,
      one vector under "embedding" when exactly one is expected. */
  predicate AcceptableEmbeddings(response: map<string, Json>, expected: int) {
    if "embeddings" in response then
      var e := response["embeddings"];
      e.JArray? && |e.items| == expected && forall i | 0 <= i < |e.items| :: IsVector(e.items[i])
    else
      "embedding" in response && expected == 1 && IsVector(response["embedding"])
  }

  /** `validate_embedding_response`'s default `expected_count`. */
  const DefaultExpectedCount := 1

  /** The reference order of the vector checks: a list, then non-empty,
      then only numbers; the first one that fails is the defect. */
  function FirstDefect(j: Json): (d: Option<Defect>)
    ensures d.None? <==> IsVector(j)
  {
    if !j.JArray? then Some(NotAList)
    else if |j.items| == 0 then Some(EmptyVector)
    else if exists k | 0 <= k < |j.items| :: !IsNumber(j.items[k]) then Some(NonNumeric)
    else None
  }

  /** The first check a vector fails. */
  method CheckVector(j: Json) returns (d: Option<Defect>)
    ensures d == FirstDefect(j)
    ensures d.None? <==> IsVector(j)
    ensures d == Some(NotAList) <==> !j.JArray?
    ensures d == Some(EmptyVector) <==> j.JArray? && |j.items| == 0
    ensures d == Some(NonNumeric) ==> exists k | 0 <= k < |j.items| :: !IsNumber(j.items[k])
  {
    if !j.JArray? {
      return Some(NotAList);
    }
    if |j.items| == 0 {
      return Some(EmptyVector);
    }
    var k := 0;
    while k < |j.items|
      invariant 0 <= k <= |j.items|
      invariant forall m | 0 <= m < k :: IsNumber(j.items[m])
    {
      if !IsNumber(j.items[k]) {
        return Some(NonNumeric);
      }
      k := k + 1;
    }
    return None;
  }

  /** `validate_embedding_response`: None when every assertion holds,
      otherwise the first assertion that fails. */
  method ValidateEmbeddingResponse(response: map<string, Json>, expected: int) returns (r: Option<Violation>)
    ensures r.None? <==> AcceptableEmbeddings(response, expected)
    ensures r == Some(MissingFields) <==> "embeddings" !in response && "embedding" !in response
    ensures r == Some(EmbeddingsNotList) <==> "embeddings" in response && !response["embeddings"].JArray?
    ensures r.Some? && r.value.WrongCount? ==>
      "embeddings" in response && r.value.expected == expected && r.value.got == |response["embeddings"].items| != expected
    ensures "embeddings" in response && response["embeddings"].JArray? && |response["embeddings"].items| != expected ==>
      r == Some(WrongCount(expected, |response["embeddings"].items|))
    ensures r.Some? && r.value.BadEmbedding? ==>
      && "embeddings" in response && response["embeddings"].JArray?
      && var items := response["embeddings"].items;
      && |items| == expected
      && r.value.index < |items| && !IsVector(items[r.value.index])
      && forall i | 0 <= i < r.value.index :: IsVector(items[i])
    ensures r.Some? && r.value.BadEmbedding? ==>
      Some(r.value.defect) == FirstDefect(response["embeddings"].items[r.value.index])
    ensures r.Some? && r.value.BadSingleEmbedding? ==>
      "embeddings" !in response && "embedding" in response && expected == 1
      && Some(r.value.defect) == FirstDefect(response["embedding"])
    ensures r == Some(OldFormatBatch) <==> "embeddings" !in response && "embedding" in response && expected != 1
  {
    if "embeddings" in response {
      var e := response["embeddings"];
      if !e.JArray? {
        return Some(EmbeddingsNotList);
      }
      if |e.items| != expected {
        return Some(WrongCount(expected, |e.items|));
      }
      var i := 0;
      while i < |e.items|
        invariant 0 <= i <= |e.items|
        invariant forall m | 0 <= m < i :: IsVector(e.items[m])
      {
        var d := CheckVector(e.items[i]);
        if d.Some? {
          return Some(BadEmbedding(i, d.value));
        }
        i := i + 1;
      }
      return None;
    } else if "embedding" in response {
      if expected != 1 {
        return Some(OldFormatBatch);
      }
      var d := CheckVector(response["embedding"]);
      if d.Some? {
        return Some(BadSingleEmbedding(d.value));
      }
      return None;
    } else {
      return Some(MissingFields);
    }
  }

  /** In an accepted batch response, every index in range -n..n-1 selects
      one of the vectors; in an accepted single response, index 0 selects
      the vector. */
  lemma AcceptedIsExtractable(response: map<string, Json>, expected: int, index: int)
    requires AcceptableEmbeddings(response, expected)
    requires -expected <= index < expected
    ensures ExtractEmbedding(response, index).Ok? <==> "embeddings" in response || index == 0
    ensures ExtractEmbedding(response, index).Ok? ==> IsVector(ExtractEmbedding(response, index).value)
  {
  }

  /** With both helpers' defaults, a response the validator accepts, in
      either format, gives its one vector to the extractor. */
  lemma DefaultsExtractTheVector(response: map<string, Json>)
    requires AcceptableEmbeddings(response, DefaultExpectedCount)
    ensures ExtractEmbedding(response, DefaultIndex).Ok?
    ensures ExtractEmbedding(response, DefaultIndex).value
         == if "embeddings" in response then response["embeddings"].items[0] else response["embedding"]
    ensures IsVector(ExtractEmbedding(response, DefaultIndex).value)
  {
    AcceptedIsExtractable(response, DefaultExpectedCount, DefaultIndex);
  }

  // ---------------------------------------------------------------------
  // is_valid_model_list_response

  /** The shape `is_valid_model_list_response` checks: a dict whose
      "models" is a list of dicts that each have a "name" key. */
  predicate IsModelList(response: Json) {
    && response.JObject? && "models" in response.fields
    && response.fields["models"].JArray?
    && var models := response.fields["models"].items;
    && forall i | 0 <= i < |models| :: models[i].JObject? && "name" in models[i].fields
  }

  /** `is_valid_model_list_response`. */
  method IsValidModelListResponse(response: Json) returns (ok: bool)
    ensures ok <==> IsModelList(response)
  {
    if !response.JObject? || "models" !in response.fields {
      return false;
    }
    var models := response.fields["models"];
    if !models.JArray? {
      return false;
    }
    var i := 0;
    while i < |models.items|
      invariant 0 <= i <= |models.items|
      invariant forall m | 0 <= m < i :: models.items[m].JObject? && "name" in models.items[m].fields
    {
      var model := models.items[i];
      if !model.JObject? || "name" !in model.fields {
        return false;
      }
      i := i + 1;
    }
    return true;
  }

  /** Every body that decodes as a `ModelsResponse` passes the check; the
      check is weaker, since it looks only at the presence of "name". */
  lemma DecodedModelListIsValid(obj: map<string, Json>)
    requires DecodeModelsResponse(obj).Ok?
    ensures IsModelList(JObject(obj))
  {
    var items := obj["models"].items;
    forall i | 0 <= i < |items|
      ensures items[i].JObject? && "name" in items[i].fields
    {
      assert AsModelInfo(items[i]).Some?;
    }
  }
}
