/**
 * The Rust SDK's configuration (`config.rs`): the defaults `Config::new`
 * fills in, the reading of `UNTRACE_*` environment variables, the checks
 * `validate` makes, in order, and the `with_*` builders. The export
 * interval is a duration in nanoseconds; `usize` is taken to be 64 bits
 * wide.
 */
module RsConfig {
  import opened Wrappers
  import Text
  import Digits
  import RsTypes
  import E = RsErrors

  const Second: nat := 1_000_000_000

  datatype Config = Config(
    apiKey: string, baseUrl: string, serviceName: string, serviceVersion: string, environment: string,
    debug: bool, samplingRate: real, maxBatchSize: RsTypes.U64, exportInterval: nat,
    headers: map<string, string>, resourceAttributes: map<string, string>,
    captureBody: bool, captureErrors: bool, disableAutoInstrumentation: bool, providers: seq<string>)

  /** `Config::new(api_key)`. */
  function NewConfig(apiKey: string): (c: Config)
    ensures c.apiKey == apiKey && c.baseUrl == "https://untrace.dev" && c.serviceName == "untrace-app"
    ensures c.serviceVersion == "0.1.0" && c.environment == "production" && !c.debug && c.samplingRate == 1.0
    ensures c.maxBatchSize == 512 && c.exportInterval == 5 * Second && c.headers == map[]
    ensures c.resourceAttributes == map[] && c.captureBody && c.captureErrors && !c.disableAutoInstrumentation
    ensures c.providers == ["all"]
  {
    Config(apiKey, "https://untrace.dev", "untrace-app", "0.1.0", "production", false, 1.0, 512, 5 * Second,
           map[], map[], true, true, false, ["all"])
  }

  /** The checks `validate` makes, in order. */
  predicate KeyOk(c: Config) { c.apiKey != "" }
  predicate RateOk(c: Config) { 0.0 <= c.samplingRate <= 1.0 }
  predicate BatchOk(c: Config) { c.maxBatchSize != 0 }
  predicate IntervalOk(c: Config) { c.exportInterval != 0 }

  /** `config.validate()`: the validation error of the first failing check. */
  function Validate(c: Config): Result<(), E.UntraceError> {
    if |c.apiKey| == 0 then Err(E.Validation("API key cannot be empty"))
    else if c.samplingRate < 0.0 || c.samplingRate > 1.0 then Err(E.Validation("Sampling rate must be between 0.0 and 1.0"))
    else if c.maxBatchSize == 0 then Err(E.Validation("Max batch size must be greater than 0"))
    else if c.exportInterval == 0 then Err(E.Validation("Export interval must be greater than 0"))
    else Ok(())
  }

  /**
   * A configuration is rejected exactly when one check fails, always with a
   * validation error, and the error names the first failing check in the
   * order key, sampling rate, batch size, interval.
   */
  lemma ValidateIff(c: Config)
    ensures Validate(c).Ok? <==> KeyOk(c) && RateOk(c) && BatchOk(c) && IntervalOk(c)
    ensures Validate(c).Err? ==> Validate(c).error.Validation?
    ensures !KeyOk(c) ==> Validate(c).error.message == "API key cannot be empty"
    ensures KeyOk(c) && !RateOk(c) ==> Validate(c).error.message == "Sampling rate must be between 0.0 and 1.0"
    ensures KeyOk(c) && RateOk(c) && !BatchOk(c) ==> Validate(c).error.message == "Max batch size must be greater than 0"
    ensures KeyOk(c) && RateOk(c) && BatchOk(c) && !IntervalOk(c) ==>
              Validate(c).error.message == "Export interval must be greater than 0"
  {
  }

  /** The defaults pass validation exactly when the API key is not empty. */
  lemma NewConfigValidates(apiKey: string)
    ensures Validate(NewConfig(apiKey)).Ok? <==> apiKey != ""
  {
  }

  /** `s.parse::<bool>()`: only the exact words `true` and `false` parse. */
  function ParseBool(s: string): (r: Option<bool>)
    ensures r.Some? <==> s == "true" || s == "false"
    ensures r.Some? ==> (r.value <==> s == "true")
  {
    if s == "true" then Some(true) else if s == "false" then Some(false) else None
  }

  /**
   * `s.parse()` into an unsigned integer type whose values are below
   * `bound`: an optional `+`, then one or more ASCII digits, with no other
   * character; a value that does not fit is an error.
   */
  function ParseUnsigned(s: string, bound: nat): Option<nat> {
    var digits := if s != [] && s[0] == '+' then s[1..] else s;
    if digits == [] || !Digits.AllDigits(digits, 10) then None
    else
      var n := Digits.FromDigits(digits, 10);
      if n < bound then Some(n) else None
  }

  /** Every number that fits parses back from its decimal text, with or without a `+`. */
  lemma ParseUnsignedRoundTrip(n: nat, bound: nat)
    requires n < bound
    ensures ParseUnsigned(Digits.Decimal(n), bound) == Some(n)
    ensures ParseUnsigned("+" + Digits.Decimal(n), bound) == Some(n)
  {
    Digits.DecimalRoundTrip(n);
    var d := Digits.Decimal(n);
    assert Digits.DigitValue(d[0]) < 10;
    assert ("+" + d)[1..] == d;
  }

  /** A text that is not all digits after an optional `+`, or an empty one, does not parse. */
  lemma ParseUnsignedRejects(s: string, bound: nat)
    ensures s == [] || s == "+" ==> ParseUnsigned(s, bound).None?
    ensures ParseUnsigned(s, bound).Some? ==> ParseUnsigned(s, bound).value < bound
    ensures (exists i :: 1 <= i < |s| && Digits.DigitValue(s[i]) >= 10) ==> ParseUnsigned(s, bound).None?
  {
    if exists i :: 1 <= i < |s| && Digits.DigitValue(s[i]) >= 10 {
      var i :| 1 <= i < |s| && Digits.DigitValue(s[i]) >= 10;
      if s[0] == '+' {
        assert s[1..][i - 1] == s[i];
      }
    }
  }

  /** `providers.split(',').map(|s| s.trim().to_string()).collect()`. */
  function ParseProviders(s: string): (ps: seq<string>)
    ensures |ps| == |Text.Split(s, ',')|
    ensures forall i :: 0 <= i < |ps| ==> ps[i] == Text.Trim(Text.Split(s, ',')[i])
  {
    var parts := Text.Split(s, ',');
    seq(|parts|, i requires 0 <= i < |parts| => Text.Trim(parts[i]))
  }

  /** A string already free of surrounding whitespace is its own trim. */
  lemma TrimFixed(s: string)
    requires s == [] || (!Text.IsWhitespace(s[0]) && !Text.IsWhitespace(s[|s| - 1]))
    ensures Text.Trim(s) == s
  {
  }

  /** An empty variable gives one empty provider name, not none. */
  lemma ParseProvidersEmpty()
    ensures ParseProviders("") == [""]
  {
  }

  /**
   * Joining trimmed, comma-free provider names with commas, and parsing the
   * result, gives the names back.
   */
  lemma ParseProvidersRoundTrip(names: seq<string>)
    requires |names| >= 1
    requires forall k :: 0 <= k < |names| ==> ',' !in names[k]
    requires forall k :: 0 <= k < |names| ==>
               names[k] == [] || (!Text.IsWhitespace(names[k][0]) && !Text.IsWhitespace(names[k][|names[k]| - 1]))
    ensures ParseProviders(Text.Join(names, ",")) == names
  {
    Text.JoinSplit(names, ',');
    assert Text.Split(Text.Join(names, ","), ',') == names;
    var ps := ParseProviders(Text.Join(names, ","));
    forall k | 0 <= k < |names| ensures ps[k] == names[k] {
      TrimFixed(names[k]);
    }
  }

  /** The environment: the variables that are set, by name. */
  type Env = map<string, string>

  /**
   * `Config::from_env()`. `parseFloat` is `str::parse::<f64>`; a missing or
   * unparsable variable keeps the default.
   */
  function FromEnv(env: Env, parseFloat: string -> Option<real>): Result<Config, E.UntraceError> {
    if "UNTRACE_API_KEY" !in env then Err(E.Config("UNTRACE_API_KEY environment variable is required"))
    else
      var d := NewConfig(env["UNTRACE_API_KEY"]);
      Ok(Config(
        env["UNTRACE_API_KEY"],
        StringVar(env, "UNTRACE_BASE_URL", d.baseUrl),
        StringVar(env, "UNTRACE_SERVICE_NAME", d.serviceName),
        StringVar(env, "UNTRACE_SERVICE_VERSION", d.serviceVersion),
        StringVar(env, "UNTRACE_ENVIRONMENT", d.environment),
        BoolVar(env, "UNTRACE_DEBUG", false),
        if "UNTRACE_SAMPLING_RATE" in env then parseFloat(env["UNTRACE_SAMPLING_RATE"]).GetOr(1.0) else d.samplingRate,
        NumberVar(env, "UNTRACE_MAX_BATCH_SIZE", 512),
        if "UNTRACE_EXPORT_INTERVAL" in env then NumberVar(env, "UNTRACE_EXPORT_INTERVAL", 5) * Second else d.exportInterval,
        d.headers, d.resourceAttributes,
        BoolVar(env, "UNTRACE_CAPTURE_BODY", true),
        BoolVar(env, "UNTRACE_CAPTURE_ERRORS", true),
        BoolVar(env, "UNTRACE_DISABLE_AUTO_INSTRUMENTATION", false),
        if "UNTRACE_PROVIDERS" in env then ParseProviders(env["UNTRACE_PROVIDERS"]) else d.providers))
  }

  function StringVar(env: Env, name: string, default: string): string {
    if name in env then env[name] else default
  }

  function BoolVar(env: Env, name: string, default: bool): bool {
    if name in env then ParseBool(env[name]).GetOr(default) else default
  }

  /** A `u64`-valued variable; the `usize` batch size has the same range here. */
  function NumberVar(env: Env, name: string, default: RsTypes.U64): RsTypes.U64 {
    if name in env then
      var r := ParseUnsigned(env[name], 0x1_0000_0000_0000_0000);
      if r.Some? then r.value else default
    else default
  }

  /**
   * Without an API key the environment gives a configuration error; with
   * only the API key set it gives exactly `Config::new` of that key.
   */
  lemma FromEnvKey(env: Env, parseFloat: string -> Option<real>)
    ensures "UNTRACE_API_KEY" !in env <==> FromEnv(env, parseFloat).Err?
    ensures "UNTRACE_API_KEY" !in env ==>
              FromEnv(env, parseFloat).error == E.Config("UNTRACE_API_KEY environment variable is required")
    ensures env.Keys == {"UNTRACE_API_KEY"} ==> FromEnv(env, parseFloat) == Ok(NewConfig(env["UNTRACE_API_KEY"]))
  {
  }

  /**
   * A numeric variable that does not parse falls back to its default: 512
   * spans per batch and a 5 second interval; one that parses is used.
   */
  lemma FromEnvNumbers(env: Env, parseFloat: string -> Option<real>)
    requires "UNTRACE_API_KEY" in env
    ensures var c := FromEnv(env, parseFloat).value;
            && (("UNTRACE_MAX_BATCH_SIZE" in env && ParseUnsigned(env["UNTRACE_MAX_BATCH_SIZE"], 0x1_0000_0000_0000_0000).None?)
                  ==> c.maxBatchSize == 512)
            && (("UNTRACE_EXPORT_INTERVAL" in env && ParseUnsigned(env["UNTRACE_EXPORT_INTERVAL"], 0x1_0000_0000_0000_0000).None?)
                  ==> c.exportInterval == 5 * Second)
            && (forall n: nat :: (n < 0x1_0000_0000_0000_0000 && "UNTRACE_MAX_BATCH_SIZE" in env
                                   && env["UNTRACE_MAX_BATCH_SIZE"] == Digits.Decimal(n)) ==> c.maxBatchSize == n)
            && (forall n: nat :: (n < 0x1_0000_0000_0000_0000 && "UNTRACE_EXPORT_INTERVAL" in env
                                   && env["UNTRACE_EXPORT_INTERVAL"] == Digits.Decimal(n)) ==> c.exportInterval == n * Second)
            && ("UNTRACE_MAX_BATCH_SIZE" !in env ==> c.maxBatchSize == 512)
            && ("UNTRACE_EXPORT_INTERVAL" !in env ==> c.exportInterval == 5 * Second)
  {
    forall n: nat | n < 0x1_0000_0000_0000_0000 && "UNTRACE_MAX_BATCH_SIZE" in env
      && env["UNTRACE_MAX_BATCH_SIZE"] == Digits.Decimal(n)
      ensures FromEnv(env, parseFloat).value.maxBatchSize == n
    {
      ParseUnsignedRoundTrip(n, 0x1_0000_0000_0000_0000);
    }
    forall n: nat | n < 0x1_0000_0000_0000_0000 && "UNTRACE_EXPORT_INTERVAL" in env
      && env["UNTRACE_EXPORT_INTERVAL"] == Digits.Decimal(n)
      ensures FromEnv(env, parseFloat).value.exportInterval == n * Second
    {
      ParseUnsignedRoundTrip(n, 0x1_0000_0000_0000_0000);
    }
  }

  /** `with_service_name`. */
  function WithServiceName(c: Config, v: string): (r: Config) ensures r.serviceName == v { c.(serviceName := v) }
  /** `with_service_version`. */
  function WithServiceVersion(c: Config, v: string): (r: Config) ensures r.serviceVersion == v { c.(serviceVersion := v) }
  /** `with_environment`. */
  function WithEnvironment(c: Config, v: string): (r: Config) ensures r.environment == v { c.(environment := v) }
  /** `with_debug`. */
  function WithDebug(c: Config, v: bool): (r: Config) ensures r.debug == v { c.(debug := v) }
  /** `with_sampling_rate`. */
  function WithSamplingRate(c: Config, v: real): (r: Config) ensures r.samplingRate == v { c.(samplingRate := v) }
  /** `with_base_url`. */
  function WithBaseUrl(c: Config, v: string): (r: Config) ensures r.baseUrl == v { c.(baseUrl := v) }
  /** `with_header(key, value)`: inserts or overwrites one header. */
  function WithHeader(c: Config, k: string, v: string): (r: Config) ensures k in r.headers && r.headers[k] == v {
    c.(headers := c.headers[k := v])
  }
  /** `with_resource_attribute(key, value)`: inserts or overwrites one resource attribute. */
  function WithResourceAttribute(c: Config, k: string, v: string): (r: Config)
    ensures k in r.resourceAttributes && r.resourceAttributes[k] == v
  {
    c.(resourceAttributes := c.resourceAttributes[k := v])
  }
  /** `with_providers`. */
  function WithProviders(c: Config, v: seq<string>): (r: Config) ensures r.providers == v { c.(providers := v) }

  /**
   * Each builder sets its own field and leaves every other field as it
   * was; the map builders also keep every other key.
   */
  lemma BuildersTouchOneField(c: Config, s: string, b: bool, x: real, k: string, v: string, ps: seq<string>)
    ensures WithServiceName(c, s).(serviceName := c.serviceName) == c
    ensures WithServiceVersion(c, s).(serviceVersion := c.serviceVersion) == c
    ensures WithEnvironment(c, s).(environment := c.environment) == c
    ensures WithDebug(c, b).(debug := c.debug) == c
    ensures WithSamplingRate(c, x).(samplingRate := c.samplingRate) == c
    ensures WithBaseUrl(c, s).(baseUrl := c.baseUrl) == c
    ensures WithProviders(c, ps).(providers := c.providers) == c
    ensures WithHeader(c, k, v).(headers := c.headers) == c
    ensures WithHeader(c, k, v).headers.Keys == c.headers.Keys + {k}
    ensures forall j :: j in c.headers && j != k ==> WithHeader(c, k, v).headers[j] == c.headers[j]
    ensures WithResourceAttribute(c, k, v).(resourceAttributes := c.resourceAttributes) == c
    ensures WithResourceAttribute(c, k, v).resourceAttributes.Keys == c.resourceAttributes.Keys + {k}
    ensures forall j :: j in c.resourceAttributes && j != k ==>
              WithResourceAttribute(c, k, v).resourceAttributes[j] == c.resourceAttributes[j]
  {
  }

  /**
   * Of the builders, only `with_sampling_rate` can change what `validate`
   * says; the others touch no checked field.
   */
  lemma BuildersKeepValidation(c: Config, s: string, b: bool, k: string, v: string, ps: seq<string>)
    ensures Validate(WithServiceName(c, s)) == Validate(c) && Validate(WithServiceVersion(c, s)) == Validate(c)
    ensures Validate(WithEnvironment(c, s)) == Validate(c) && Validate(WithDebug(c, b)) == Validate(c)
    ensures Validate(WithBaseUrl(c, s)) == Validate(c) && Validate(WithHeader(c, k, v)) == Validate(c)
    ensures Validate(WithResourceAttribute(c, k, v)) == Validate(c) && Validate(WithProviders(c, ps)) == Validate(c)
  {
  }

  /** With a valid configuration, setting the sampling rate keeps it valid exactly when the rate is in [0, 1]. */
  lemma WithSamplingRateValidation(c: Config, rate: real)
    requires Validate(c).Ok?
    ensures Validate(WithSamplingRate(c, rate)).Ok? <==> 0.0 <= rate <= 1.0
  {
  }

  /**
   * Each builder changes its own field and no other: a header set twice
   * keeps the last value, other headers and every other field stay.
   */
  lemma WithHeaderLastWins(c: Config, k: string, v1: string, v2: string)
    ensures WithHeader(WithHeader(c, k, v1), k, v2) == WithHeader(c, k, v2)
    ensures forall j :: j in c.headers && j != k ==> j in WithHeader(c, k, v1).headers && WithHeader(c, k, v1).headers[j] == c.headers[j]
    ensures WithHeader(c, k, v1).headers.Keys == c.headers.Keys + {k}
    ensures WithHeader(c, k, v1).(headers := c.headers) == c
  {
  }

  /** Builders on different fields commute. */
  lemma BuildersCommute(c: Config, name: string, rate: real, k: string, v: string)
    ensures WithSamplingRate(WithServiceName(c, name), rate) == WithServiceName(WithSamplingRate(c, rate), name)
    ensures WithHeader(WithResourceAttribute(c, k, v), k, v) == WithResourceAttribute(WithHeader(c, k, v), k, v)
  {
  }
}
