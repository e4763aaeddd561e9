/** `load_settings`: the process configuration read from the environment
    (src/sentinel_signal_mcp/config.py). The environment is a map from
    variable names to values; a name that is absent is unset. Python's
    `float()` is left abstract as `parseFloat`. */
module Config {
  import opened Wrappers
  import opened PyStrings

  const DefaultApiBaseUrl: string := "https://sentinelsignal.io"
  /** `str(DEFAULT_TIMEOUT_SECONDS)`, the text parsed when no timeout is set. */
  const DefaultTimeoutText: string := "30.0"
  const DefaultUserAgent: string := "sentinel-signal-mcp/0.1.0"

  const ApiKeyVar: string := "SENTINEL_API_KEY"
  const ApiBaseUrlVar: string := "SENTINEL_API_BASE_URL"
  const TimeoutVar: string := "SENTINEL_TIMEOUT_SECONDS"
  const LegacyTimeoutVar: string := "SENTINEL_API_TIMEOUT_SECONDS"

  type Environment = map<string, string>

  /** The four variable names are different keys of the environment. */
  lemma VarNamesDistinct()
    ensures ApiKeyVar != TimeoutVar && ApiBaseUrlVar != TimeoutVar && ApiKeyVar != ApiBaseUrlVar
    ensures LegacyTimeoutVar != TimeoutVar && LegacyTimeoutVar != ApiKeyVar && LegacyTimeoutVar != ApiBaseUrlVar
  {
    assert |ApiKeyVar| == 16 && |ApiBaseUrlVar| == 21 && |TimeoutVar| == 24 && |LegacyTimeoutVar| == 28;
  }

  /** A Python float: a finite value, an infinity, or NaN. */
  datatype Float = Finite(value: real) | Infinite(negative: bool) | NaN

  /** Python's `x <= 0` on a float; every comparison with NaN is false. */
  predicate AtMostZero(x: Float)
  {
    match x
    case Finite(v) => v <= 0.0
    case Infinite(negative) => negative
    case NaN => false
  }

  /** Python's `x > 0` on a float. */
  predicate Positive(x: Float)
  {
    match x
    case Finite(v) => v > 0.0
    case Infinite(negative) => !negative
    case NaN => false
  }

  datatype Settings = Settings(apiBaseUrl: string, apiKey: string, timeoutSeconds: Float, userAgent: string)

  /** The three `RuntimeError`s `load_settings` raises. */
  datatype ConfigError = ApiKeyRequired | TimeoutNotANumber | TimeoutNotPositive

  /** `os.getenv(name, default)`. */
  function GetenvOr(env: Environment, name: string, default: string): string
  {
    if name in env then env[name] else default
  }

  /** A variable that is set to a non-empty value, which is what
      `os.getenv(name) or ...` takes. */
  predicate SetNonEmpty(env: Environment, name: string)
  {
    name in env && env[name] != ""
  }

  /** The API key: the stripped value of `SENTINEL_API_KEY`, empty when the
      variable is unset or holds only whitespace. */
  function ApiKeyFrom(env: Environment): (r: string)
    ensures r == "" <==> ApiKeyVar !in env || AllSpace(env[ApiKeyVar])
    ensures r != "" ==> !IsSpace(r[0]) && !IsSpace(r[|r| - 1])
  {
    StripBlankIff(GetenvOr(env, ApiKeyVar, ""));
    Strip(GetenvOr(env, ApiKeyVar, ""))
  }

  /** The default base URL is unchanged by `strip()` and by `rstrip("/")`. */
  lemma DefaultApiBaseUrlIsNormal()
    ensures Strip(DefaultApiBaseUrl) == DefaultApiBaseUrl
    ensures RStripSlash(DefaultApiBaseUrl) == DefaultApiBaseUrl
  {
    var d := DefaultApiBaseUrl;
    assert !IsSpace(d[0]) && !IsSpace(d[|d| - 1]) && d[|d| - 1] != '/';
    assert LStrip(d) == d;
    assert RStrip(d) == d;
  }

  /** The API base URL: the stripped value of `SENTINEL_API_BASE_URL`, or
      the default when that is unset or blank, with every trailing slash
      removed, so that it never ends in a slash. When the variable is unset
      the source strips the default itself, which changes nothing
      (`DefaultApiBaseUrlIsNormal`), so the default is taken as it is. */
  function ApiBaseUrlFrom(env: Environment): (r: string)
    ensures r == [] || r[|r| - 1] != '/'
  {
    if ApiBaseUrlVar in env && Strip(env[ApiBaseUrlVar]) != "" then RStripSlash(Strip(env[ApiBaseUrlVar]))
    else RStripSlash(DefaultApiBaseUrl)
  }

  /** Which value the base URL comes from. */
  lemma ApiBaseUrlChoice(env: Environment)
    ensures ApiBaseUrlVar !in env || AllSpace(env[ApiBaseUrlVar]) ==> ApiBaseUrlFrom(env) == DefaultApiBaseUrl
    ensures ApiBaseUrlVar in env && !AllSpace(env[ApiBaseUrlVar]) ==> ApiBaseUrlFrom(env) == RStripSlash(Strip(env[ApiBaseUrlVar]))
  {
    DefaultApiBaseUrlIsNormal();
    if ApiBaseUrlVar in env {
      StripBlankIff(env[ApiBaseUrlVar]);
    }
  }

  /** The text the timeout is parsed from: `SENTINEL_TIMEOUT_SECONDS` when it
      is set and non-empty, else `SENTINEL_API_TIMEOUT_SECONDS` when that is,
      else the default; stripped in every case. */
  function TimeoutTextFrom(env: Environment): (r: string)
    ensures SetNonEmpty(env, TimeoutVar) ==> r == Strip(env[TimeoutVar])
    ensures !SetNonEmpty(env, TimeoutVar) && SetNonEmpty(env, LegacyTimeoutVar) ==> r == Strip(env[LegacyTimeoutVar])
    ensures !SetNonEmpty(env, TimeoutVar) && !SetNonEmpty(env, LegacyTimeoutVar) ==> r == Strip(DefaultTimeoutText)
  {
    var raw :=
      if SetNonEmpty(env, TimeoutVar) then env[TimeoutVar]
      else if SetNonEmpty(env, LegacyTimeoutVar) then env[LegacyTimeoutVar]
      else DefaultTimeoutText;
    Strip(raw)
  }

  /** The checks `load_settings` makes once it has read the stripped API
      key, the parsed timeout and the base URL, as the source writes them:
      the positivity test is `timeout_seconds <= 0`, which NaN passes. */
  function CheckedAsWritten(apiKey: string, parsed: Option<Float>, apiBaseUrl: string): (r: Result<Settings, ConfigError>)
    ensures r.Success? ==> !AtMostZero(r.value.timeoutSeconds)
    ensures r.Success? <==> apiKey != "" && parsed.Some? && !AtMostZero(parsed.value)
    ensures r.Success? ==> r.value == Settings(apiBaseUrl, apiKey, parsed.value, DefaultUserAgent)
  {
    if apiKey == "" then Failure(ApiKeyRequired)
    else match parsed
      case None => Failure(TimeoutNotANumber)
      case Some(timeout) =>
        if AtMostZero(timeout) then Failure(TimeoutNotPositive)
        else Success(Settings(apiBaseUrl, apiKey, timeout, DefaultUserAgent))
  }

  /** The same checks with the positivity test the source evidently
      intends, `not timeout_seconds > 0`, so that NaN is rejected too. */
  function Checked(apiKey: string, parsed: Option<Float>, apiBaseUrl: string): (r: Result<Settings, ConfigError>)
    ensures r == Failure(ApiKeyRequired) <==> apiKey == ""
    ensures r == Failure(TimeoutNotANumber) <==> apiKey != "" && parsed.None?
    ensures r.Success? <==> apiKey != "" && parsed.Some? && Positive(parsed.value)
    ensures r.Success? ==> r.value == Settings(apiBaseUrl, apiKey, parsed.value, DefaultUserAgent)
  {
    if apiKey == "" then Failure(ApiKeyRequired)
    else match parsed
      case None => Failure(TimeoutNotANumber)
      case Some(timeout) =>
        if !Positive(timeout) then Failure(TimeoutNotPositive)
        else Success(Settings(apiBaseUrl, apiKey, timeout, DefaultUserAgent))
  }

  /** The two tests disagree only on NaN. */
  lemma CheckedAgreesUnlessNan(apiKey: string, parsed: Option<Float>, apiBaseUrl: string)
    requires parsed != Some(NaN)
    ensures Checked(apiKey, parsed, apiBaseUrl) == CheckedAsWritten(apiKey, parsed, apiBaseUrl)
  {
    if parsed.Some? {
      assert AtMostZero(parsed.value) <==> !Positive(parsed.value);
    }
  }

  /** `load_settings` as the source writes it. */
  function LoadSettingsAsWritten(env: Environment, parseFloat: string -> Option<Float>): (r: Result<Settings, ConfigError>)
    ensures r.Success? ==> !AtMostZero(r.value.timeoutSeconds)
  {
    CheckedAsWritten(ApiKeyFrom(env), parseFloat(TimeoutTextFrom(env)), ApiBaseUrlFrom(env))
  }

  /** A NaN timeout is accepted by the source's test: with the API key set
      and `SENTINEL_TIMEOUT_SECONDS=nan`, which `float()` reads as NaN,
      `load_settings` succeeds with a timeout that is not positive. */
  lemma NanTimeoutAccepted(env: Environment, parseFloat: string -> Option<Float>)
    requires ApiKeyFrom(env) != ""
    requires TimeoutVar in env && env[TimeoutVar] == "nan"
    requires parseFloat("nan") == Some(NaN)
    ensures LoadSettingsAsWritten(env, parseFloat).Success?
    ensures LoadSettingsAsWritten(env, parseFloat).value.timeoutSeconds == NaN
    ensures !Positive(LoadSettingsAsWritten(env, parseFloat).value.timeoutSeconds)
  {
    VarNamesDistinct();
    var parsed := parseFloat(TimeoutTextFrom(env));
    assert parsed == Some(NaN) by {
      NanTextIsStripped();
      assert TimeoutTextFrom(env) == "nan";
    }
    CheckedAsWrittenAcceptsNan(ApiKeyFrom(env), parsed, ApiBaseUrlFrom(env));
    assert LoadSettingsAsWritten(env, parseFloat) == CheckedAsWritten(ApiKeyFrom(env), parsed, ApiBaseUrlFrom(env));
  }

  /** `strip()` leaves the text `nan` as it is. */
  lemma NanTextIsStripped()
    ensures Strip("nan") == "nan"
  {
    StripUnchanged("nan");
  }

  /** The source's checks accept a NaN timeout once the key is present. */
  lemma CheckedAsWrittenAcceptsNan(apiKey: string, parsed: Option<Float>, apiBaseUrl: string)
    requires apiKey != "" && parsed == Some(NaN)
    ensures CheckedAsWritten(apiKey, parsed, apiBaseUrl) == Success(Settings(apiBaseUrl, apiKey, NaN, DefaultUserAgent))
  {
  }

  /** `load_settings` with the corrected positivity test. The client uses
      this one. */
  function LoadSettings(env: Environment, parseFloat: string -> Option<Float>): (r: Result<Settings, ConfigError>)
    ensures r == Failure(ApiKeyRequired) <==> ApiKeyVar !in env || AllSpace(env[ApiKeyVar])
    ensures r == Failure(TimeoutNotANumber) <==> ApiKeyFrom(env) != "" && parseFloat(TimeoutTextFrom(env)).None?
    ensures r.Success? <==>
      && ApiKeyFrom(env) != ""
      && parseFloat(TimeoutTextFrom(env)).Some?
      && Positive(parseFloat(TimeoutTextFrom(env)).value)
    ensures r.Success? ==>
      && r.value.apiKey == Strip(env[ApiKeyVar]) != ""
      && r.value.apiBaseUrl == ApiBaseUrlFrom(env)
      && (r.value.apiBaseUrl == [] || r.value.apiBaseUrl[|r.value.apiBaseUrl| - 1] != '/')
      && r.value.timeoutSeconds == parseFloat(TimeoutTextFrom(env)).value
      && Positive(r.value.timeoutSeconds)
      && r.value.userAgent == DefaultUserAgent
  {
    Checked(ApiKeyFrom(env), parseFloat(TimeoutTextFrom(env)), ApiBaseUrlFrom(env))
  }

  /** The correction changes nothing unless the timeout parses as NaN. */
  lemma LoadSettingsAgreesUnlessNan(env: Environment, parseFloat: string -> Option<Float>)
    requires parseFloat(TimeoutTextFrom(env)) != Some(NaN)
    ensures LoadSettings(env, parseFloat) == LoadSettingsAsWritten(env, parseFloat)
  {
    CheckedAgreesUnlessNan(ApiKeyFrom(env), parseFloat(TimeoutTextFrom(env)), ApiBaseUrlFrom(env));
  }

  /** A timeout variable that is set but blank is still the one chosen, and
      then fails to parse (`float("")` raises), even when the legacy
      variable holds a good value. */
  lemma BlankTimeoutRejected(env: Environment, parseFloat: string -> Option<Float>)
    requires parseFloat("") == None
    requires ApiKeyFrom(env) != ""
    requires SetNonEmpty(env, TimeoutVar) && AllSpace(env[TimeoutVar])
    ensures LoadSettings(env, parseFloat) == Failure(TimeoutNotANumber)
  {
    StripBlankIff(env[TimeoutVar]);
  }

  /** `strip()` leaves the default timeout text as it is. */
  lemma DefaultTimeoutTextIsStripped()
    ensures Strip(DefaultTimeoutText) == DefaultTimeoutText
  {
    StripUnchanged(DefaultTimeoutText);
  }

  /** With neither timeout variable set, the timeout is the default 30
      seconds. */
  lemma DefaultTimeout(env: Environment, parseFloat: string -> Option<Float>)
    requires parseFloat(DefaultTimeoutText) == Some(Finite(30.0))
    requires ApiKeyFrom(env) != ""
    requires !SetNonEmpty(env, TimeoutVar) && !SetNonEmpty(env, LegacyTimeoutVar)
    ensures LoadSettings(env, parseFloat).Success?
    ensures LoadSettings(env, parseFloat).value.timeoutSeconds == Finite(30.0)
  {
    var parsed := parseFloat(TimeoutTextFrom(env));
    assert parsed == Some(Finite(30.0)) by {
      DefaultTimeoutTextIsStripped();
      assert TimeoutTextFrom(env) == DefaultTimeoutText;
    }
    assert Positive(parsed.value);
    assert LoadSettings(env, parseFloat) == Checked(ApiKeyFrom(env), parsed, ApiBaseUrlFrom(env));
  }

  /** A base URL made only of slashes normalises to the empty string. */
  lemma SlashOnlyBaseUrl(env: Environment)
    requires ApiBaseUrlVar in env && env[ApiBaseUrlVar] == "///"
    ensures ApiBaseUrlFrom(env) == ""
  {
    assert !IsSpace('/');
    assert LStrip("///") == "///";
    assert RStrip("///") == "///";
    assert "///"[..2] == "//" && "//"[..1] == "/" && "/"[..0] == "";
  }
}
