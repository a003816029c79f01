/** Process settings: the field defaults, the log-level validator and the
    base-URL rewrite applied before the URL is parsed. */
module Config {
  import opened Wrappers
  import opened JsonValue
  import opened Text

  /** The accepted log levels, in the order the error message lists them. */
  const ValidLevels: seq<string> := ["DEBUG", "INFO", "WARNING", "ERROR", "CRITICAL"]

  const DefaultProxyPort := 11434
  const DefaultLogLevel := "INFO"
  const DefaultRequestTimeout := 60
  const DefaultMaxRetries := 3

  /** `validate_log_level`: the upper-cased value when it names one of the
      five levels, a rejection otherwise. Acceptance ignores case. */
  function ValidateLogLevel(v: string): (r: Result<string, string>)
    ensures r.Ok? <==> Upper(v) in ValidLevels
    ensures r.Ok? ==> r.value == Upper(v) && r.value in ValidLevels
  {
    if Upper(v) !in ValidLevels then
      Err("Invalid log level. Must be one of: DEBUG, INFO, WARNING, ERROR, CRITICAL")
    else Ok(Upper(v))
  }

  /** Validating an accepted level again gives the same level. */
  lemma LogLevelIdempotent(v: string)
    requires ValidateLogLevel(v).Ok?
    ensures ValidateLogLevel(ValidateLogLevel(v).value) == ValidateLogLevel(v)
  {
    UpperIdempotent(v);
  }

  /** Two spellings that differ only in case are treated alike. */
  lemma LogLevelCaseInsensitive(v: string, w: string)
    requires Upper(v) == Upper(w)
    ensures ValidateLogLevel(v) == ValidateLogLevel(w)
  {
  }

  /** Python's `upper()` maps the dotless i to a plain `I`, so this
      spelling is accepted as the INFO level. */
  lemma DotlessIAccepted()
    ensures ValidateLogLevel("\U{0131}nfo") == Ok("INFO")
  {
    assert Upper("\U{0131}nfo") == "INFO";
  }

  const V1Suffix := "/v1"

  /** `validate_base_url`: a string not ending in `/v1` loses all trailing
      `/` and gains `/v1`; a string already ending in `/v1`, and any
      non-string value, passes through unchanged. */
  function ValidateBaseUrl(v: Json): (r: Json)
    ensures !v.JString? ==> r == v
    ensures v.JString? && EndsWith(v.s, V1Suffix) ==> r == v
    ensures v.JString? ==> r.JString? && EndsWith(r.s, V1Suffix)
    ensures v.JString? && !EndsWith(v.s, V1Suffix) ==>
      r.s == RStrip(v.s, '/') + V1Suffix
  {
    if v.JString? && !EndsWith(v.s, V1Suffix) then JString(RStrip(v.s, '/') + V1Suffix)
    else v
  }

  /** Rewriting a rewritten URL changes nothing. */
  lemma BaseUrlIdempotent(v: Json)
    ensures ValidateBaseUrl(ValidateBaseUrl(v)) == ValidateBaseUrl(v)
  {
  }

  /** A URL ending in `/v1/` does not end in `/v1`, so it gets a second
      `/v1` after its slash is stripped. */
  lemma TrailingSlashAfterV1()
    ensures ValidateBaseUrl(JString("https://api.test.com/v1/")) == JString("https://api.test.com/v1/v1")
  {
    var s := "https://api.test.com/v1/";
    assert !EndsWith(s, V1Suffix) by {
      assert s[|s| - 3..] == "v1/";
    }
    assert RStrip(s[..|s| - 1], '/') == s[..|s| - 1];
  }

  /** The settings as loaded; the API base URL and key are required. */
  datatype Settings = Settings(
    baseUrl: string,
    apiKey: string,
    proxyPort: int,
    logLevel: string,
    requestTimeout: int,
    maxRetries: int,
    modelMappingFile: Option<string>,
    debug: bool)

  /** The values found in the environment; `None` is an unset variable. */
  datatype SettingsInput = SettingsInput(
    baseUrl: Option<string>,
    apiKey: Option<string>,
    proxyPort: Option<int>,
    logLevel: Option<string>,
    requestTimeout: Option<int>,
    maxRetries: Option<int>,
    modelMappingFile: Option<string>,
    debug: Option<bool>)

  datatype SettingsError = Missing(field: string) | InvalidLogLevel(message: string)

  /** Every problem with an environment, in field order: a missing base
      URL, a missing API key, a log level that is not one of the five. */
  function SettingsErrors(env: SettingsInput): (errors: seq<SettingsError>)
    ensures errors == [] <==>
      env.baseUrl.Some? && env.apiKey.Some? &&
      (env.logLevel.Some? ==> Upper(env.logLevel.value) in ValidLevels)
    ensures env.baseUrl.None? ==> Missing("OPENAI_API_BASE_URL") in errors
    ensures env.apiKey.None? ==> Missing("OPENAI_API_KEY") in errors
    ensures env.logLevel.Some? && Upper(env.logLevel.value) !in ValidLevels ==>
      |errors| > 0 && errors[|errors| - 1].InvalidLogLevel?
  {
    var urlErrors := if env.baseUrl.None? then [Missing("OPENAI_API_BASE_URL")] else [];
    var keyErrors := if env.apiKey.None? then [Missing("OPENAI_API_KEY")] else [];
    var levelErrors := if env.logLevel.Some? && ValidateLogLevel(env.logLevel.value).Err?
      then [InvalidLogLevel(ValidateLogLevel(env.logLevel.value).error)] else [];
    urlErrors + keyErrors + levelErrors
  }

  /** The settings object built from an environment: every problem is
      reported, in field order; unset optional fields take their defaults
      (the default log level is not passed through the validator); a set log
      level is validated and a set base URL is rewritten to end in `/v1`. */
  function LoadSettings(env: SettingsInput): (r: Result<Settings, seq<SettingsError>>)
    ensures r.Ok? <==>
      env.baseUrl.Some? && env.apiKey.Some? &&
      (env.logLevel.Some? ==> Upper(env.logLevel.value) in ValidLevels)
    ensures r.Err? ==> r.error == SettingsErrors(env)
    ensures r.Err? && env.baseUrl.None? ==> Missing("OPENAI_API_BASE_URL") in r.error
    ensures r.Err? && env.apiKey.None? ==> Missing("OPENAI_API_KEY") in r.error
    ensures env.logLevel.Some? && Upper(env.logLevel.value) !in ValidLevels ==>
      r.Err? && |r.error| > 0 && r.error[|r.error| - 1].InvalidLogLevel?
    ensures r.Ok? ==> EndsWith(r.value.baseUrl, V1Suffix) && r.value.logLevel in ValidLevels
    ensures r.Ok? ==> r.value.apiKey == env.apiKey.value
    ensures r.Ok? && EndsWith(env.baseUrl.value, V1Suffix) ==> r.value.baseUrl == env.baseUrl.value
    ensures r.Ok? && !EndsWith(env.baseUrl.value, V1Suffix) ==>
      r.value.baseUrl == RStrip(env.baseUrl.value, '/') + V1Suffix
    ensures r.Ok? && env.logLevel.Some? ==> r.value.logLevel == Upper(env.logLevel.value)
    ensures r.Ok? && env.logLevel.None? ==> r.value.logLevel == "INFO"
    ensures r.Ok? && env.proxyPort.None? ==> r.value.proxyPort == 11434
    ensures r.Ok? && env.proxyPort.Some? ==> r.value.proxyPort == env.proxyPort.value
    ensures r.Ok? && env.requestTimeout.None? ==> r.value.requestTimeout == 60
    ensures r.Ok? && env.requestTimeout.Some? ==> r.value.requestTimeout == env.requestTimeout.value
    ensures r.Ok? && env.maxRetries.None? ==> r.value.maxRetries == 3
    ensures r.Ok? && env.maxRetries.Some? ==> r.value.maxRetries == env.maxRetries.value
    ensures r.Ok? ==> r.value.modelMappingFile == env.modelMappingFile
    ensures r.Ok? && env.debug.None? ==> !r.value.debug
    ensures r.Ok? && env.debug.Some? ==> r.value.debug == env.debug.value
  {
    var errors := SettingsErrors(env);
    if errors != [] then Err(errors)
    else
      assert DefaultLogLevel in ValidLevels;
      var level := if env.logLevel.Some? then ValidateLogLevel(env.logLevel.value).value else DefaultLogLevel;
      Ok(Settings(
        ValidateBaseUrl(JString(env.baseUrl.value)).s,
        env.apiKey.value,
        env.proxyPort.GetOr(DefaultProxyPort),
        level,
        env.requestTimeout.GetOr(DefaultRequestTimeout),
        env.maxRetries.GetOr(DefaultMaxRetries),
        env.modelMappingFile,
        env.debug.GetOr(false)))
  }

  /** The environment that sets every variable to a loaded setting. */
  function AsInput(x: Settings): SettingsInput {
    SettingsInput(Some(x.baseUrl), Some(x.apiKey), Some(x.proxyPort), Some(x.logLevel),
                  Some(x.requestTimeout), Some(x.maxRetries), x.modelMappingFile, Some(x.debug))
  }

  /** Loading settings is stable: an environment that spells out loaded
      settings loads as exactly those settings, because both validators are
      idempotent. */
  lemma ReloadIsStable(env: SettingsInput)
    requires LoadSettings(env).Ok?
    ensures LoadSettings(AsInput(LoadSettings(env).value)) == LoadSettings(env)
  {
    var x := LoadSettings(env).value;
    BaseUrlIdempotent(JString(env.baseUrl.value));
    if env.logLevel.Some? {
      LogLevelIdempotent(env.logLevel.value);
    } else {
      assert Upper(DefaultLogLevel) == DefaultLogLevel;
    }
  }
}
