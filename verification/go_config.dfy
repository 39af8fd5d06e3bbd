/**
 * The Go SDK's configuration (`config.go`): the defaults `DefaultConfig`
 * fills in and the checks `Validate` makes, in order. Durations are in
 * nanoseconds, as `time.Duration` counts them.
 */
module GoConfig {
  import opened Wrappers
  import opened GoValues
  import opened GoErrors

  const Second: int := 1_000_000_000

  datatype Config = Config(
    apiKey: string, serviceName: string, environment: string, version: string, baseUrl: string,
    debug: bool, samplingRate: real, maxBatchSize: int, exportInterval: int,
    headers: map<string, string>, resourceAttributes: GoMap)

  /** `DefaultConfig(apiKey)`. */
  function DefaultConfig(apiKey: string): (c: Config)
    ensures c.apiKey == apiKey && c.serviceName == "untrace-app" && c.environment == "production"
    ensures c.version == "0.1.0" && c.baseUrl == "https://untrace.dev" && !c.debug
    ensures c.samplingRate == 1.0 && c.maxBatchSize == 512 && c.exportInterval == 5 * Second
    ensures c.headers == map[] && c.resourceAttributes == map[]
  {
    Config(apiKey, "untrace-app", "production", "0.1.0", "https://untrace.dev", false, 1.0, 512, 5 * Second,
           map[], map[])
  }

  /** The checks `Validate` makes, in order, each with the message of the error it returns. */
  predicate KeyOk(c: Config) { c.apiKey != "" }
  predicate RateOk(c: Config) { 0.0 <= c.samplingRate <= 1.0 }
  predicate BatchOk(c: Config) { c.maxBatchSize > 0 }
  predicate IntervalOk(c: Config) { c.exportInterval > 0 }

  /**
   * `c.Validate()`: `None` for nil, or the validation error of the first
   * failing check. The source builds the error with a literal naming only
   * the message, so its field is empty.
   */
  function Validate(c: Config): Option<GoError> {
    if c.apiKey == "" then Some(NewValidationError("API key is required", ""))
    else if c.samplingRate < 0.0 || c.samplingRate > 1.0 then
      Some(NewValidationError("sampling rate must be between 0.0 and 1.0", ""))
    else if c.maxBatchSize <= 0 then Some(NewValidationError("max batch size must be positive", ""))
    else if c.exportInterval <= 0 then Some(NewValidationError("export interval must be positive", ""))
    else None
  }

  /**
   * A configuration is rejected exactly when one check fails, always with
   * a validation error; the error names the first failing check in the
   * order key, rate, batch size, interval.
   */
  lemma ValidateIff(c: Config)
    ensures Validate(c).None? <==> KeyOk(c) && RateOk(c) && BatchOk(c) && IntervalOk(c)
    ensures Validate(c).Some? ==> Validate(c).value.Untrace? && Validate(c).value.kind.Validation?
    ensures !KeyOk(c) ==> ErrorText(Validate(c).value) == "API key is required"
    ensures KeyOk(c) && !RateOk(c) ==> ErrorText(Validate(c).value) == "sampling rate must be between 0.0 and 1.0"
    ensures KeyOk(c) && RateOk(c) && !BatchOk(c) ==> ErrorText(Validate(c).value) == "max batch size must be positive"
    ensures KeyOk(c) && RateOk(c) && BatchOk(c) && !IntervalOk(c) ==>
              ErrorText(Validate(c).value) == "export interval must be positive"
  {
  }

  /** The defaults pass validation exactly when the API key is not empty. */
  lemma DefaultConfigValidates(apiKey: string)
    ensures Validate(DefaultConfig(apiKey)).None? <==> apiKey != ""
  {
  }
}
