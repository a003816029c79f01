/** The shared part of every translator: the model-name mapping fixed at
    construction and the normaliser that turns an Ollama `options` dict into
    OpenAI request parameters. */
module TranslatorBase {
  import opened Wrappers
  import opened JsonValue

  /** A translator is its model mapping (Ollama name to upstream name); it
      is never changed after construction. */
  datatype Translator = Translator(modelMapping: map<string, string>) {

    /** `dict.get(name, name)`: the mapped name for a key of the mapping,
        the name itself otherwise. */
    function MapModelName(name: string): (r: string)
      ensures name in modelMapping ==> r == modelMapping[name]
      ensures name !in modelMapping ==> r == name
      ensures r == name || r in modelMapping.Values
    {
      if name in modelMapping then modelMapping[name] else name
    }
  }

  /** `model_mapping or {}`: no mapping (or an empty one) gives the empty
      mapping; a non-empty mapping is kept as it is. */
  function NewTranslator(mapping: Option<map<string, string>>): (t: Translator)
    ensures mapping.None? ==> t.modelMapping == map[]
    ensures mapping.Some? ==> t.modelMapping == mapping.value
  {
    if mapping.None? || mapping.value == map[] then Translator(map[]) else Translator(mapping.value)
  }

  /** A translator built without a mapping maps every name to itself. */
  lemma UnmappedIsIdentity(name: string)
    ensures NewTranslator(None).MapModelName(name) == name
  {
  }

  /** The OpenAI parameter names `extract_options` can produce. */
  const OutputKeys: set<string> := {"temperature", "top_p", "top_k", "max_tokens", "stop"}

  /** The Ollama option each OpenAI parameter is read from: `max_tokens`
      comes from `num_predict`, the others keep their name. */
  function SourceKey(outKey: string): string {
    if outKey == "max_tokens" then "num_predict" else outKey
  }

  /** Python truthiness of the optional options dict (`if not options`). */
  predicate Truthy(options: Option<map<string, Json>>) {
    options.Some? && options.value != map[]
  }

  /** `extract_options`: copies `temperature`, `top_p`, `top_k` and `stop`,
      renames `num_predict` to `max_tokens`, and drops every other key. An
      output key is present exactly when its source key is present in the
      input; nothing is defaulted. */
  function ExtractOptions(options: Option<map<string, Json>>): (r: map<string, Json>)
    ensures !Truthy(options) ==> r == map[]
    ensures r.Keys <= OutputKeys
    ensures forall k | k in OutputKeys ::
      (k in r <==> options.Some? && SourceKey(k) in options.value)
    ensures forall k | k in r :: options.Some? && SourceKey(k) in options.value && r[k] == options.value[SourceKey(k)]
  {
    if !Truthy(options) then map[]
    else
      var o := options.value;
      var t0: map<string, Json> := map[];
      var t1 := if "temperature" in o then t0["temperature" := o["temperature"]] else t0;
      var t2 := if "top_p" in o then t1["top_p" := o["top_p"]] else t1;
      var t3 := if "top_k" in o then t2["top_k" := o["top_k"]] else t2;
      var t4 := if "num_predict" in o then t3["max_tokens" := o["num_predict"]] else t3;
      var t5 := if "stop" in o then t4["stop" := o["stop"]] else t4;
      t5
  }

  /** `num_predict` always leaves as `max_tokens` with the same value, and no
      `num_predict` (and no caller-supplied `max_tokens`) ever reaches the
      output under its own name. */
  lemma NumPredictBecomesMaxTokens(options: map<string, Json>)
    ensures "num_predict" !in ExtractOptions(Some(options))
    ensures "num_predict" in options <==> "max_tokens" in ExtractOptions(Some(options))
    ensures "num_predict" in options ==> ExtractOptions(Some(options))["max_tokens"] == options["num_predict"]
  {
    var r := ExtractOptions(Some(options));
    assert "max_tokens" in OutputKeys && SourceKey("max_tokens") == "num_predict";
    if options == map[] {
      assert "num_predict" !in options;
    }
  }

  /** Normalising twice loses `max_tokens`: the second pass sees no
      `num_predict`, so the normaliser is not idempotent. */
  lemma NormaliseTwiceDropsMaxTokens(options: map<string, Json>)
    requires "num_predict" in options
    ensures "max_tokens" in ExtractOptions(Some(options))
    ensures "max_tokens" !in ExtractOptions(Some(ExtractOptions(Some(options))))
  {
    NumPredictBecomesMaxTokens(options);
    NumPredictBecomesMaxTokens(ExtractOptions(Some(options)));
  }
}
