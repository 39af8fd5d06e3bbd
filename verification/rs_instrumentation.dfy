/**
 * The Rust SDK's instrumentation manager (`instrumentation.rs`): a
 * configuration and an enabled flag. Enabling and disabling only log and
 * flip the flag; the log lines are not modelled.
 */
module RsInstrumentation {
  import opened Wrappers
  import opened RsTypes
  import E = RsErrors

  datatype Instrumentation = Instrumentation(config: InstrumentationConfig, enabled: bool)

  /** `Instrumentation::new(config)`. */
  function NewInstrumentation(config: InstrumentationConfig): (i: Instrumentation)
    ensures !i.enabled && i.config == config
  {
    Instrumentation(config, false)
  }

  /** `new_instrumentation()`: the default configuration, not yet enabled. */
  function DefaultInstrumentation(): (i: Instrumentation)
    ensures !i.enabled && i.config.providers == [] && i.config.autoInstrument
  {
    NewInstrumentation(DefaultInstrumentationConfig())
  }

  /** `enable()`. */
  function Enable(i: Instrumentation): (Instrumentation, Result<(), E.UntraceError>) {
    if i.enabled then (i, Ok(())) else (i.(enabled := true), Ok(()))
  }

  /** `disable()`. */
  function Disable(i: Instrumentation): (Instrumentation, Result<(), E.UntraceError>) {
    if !i.enabled then (i, Ok(())) else (i.(enabled := false), Ok(()))
  }

  /** `update_config(config)`. */
  function UpdateConfig(i: Instrumentation, config: InstrumentationConfig): (r: Instrumentation)
    ensures r.config == config
  {
    i.(config := config)
  }

  /**
   * `enable` and `disable` never fail, leave the flag on and off
   * respectively whatever it was, keep the configuration, and are
   * idempotent; `update_config` leaves the flag alone, and `disable`
   * undoes `enable` on a disabled instance.
   */
  lemma LifecycleProperties(i: Instrumentation, config: InstrumentationConfig)
    ensures Enable(i).1.Ok? && Enable(i).0.enabled && Enable(i).0.config == i.config
    ensures Disable(i).1.Ok? && !Disable(i).0.enabled && Disable(i).0.config == i.config
    ensures Enable(Enable(i).0) == Enable(i) && Disable(Disable(i).0) == Disable(i)
    ensures !i.enabled ==> Disable(Enable(i).0).0 == i
    ensures UpdateConfig(i, config).enabled == i.enabled
    ensures Enable(UpdateConfig(i, config)).0 == UpdateConfig(Enable(i).0, config)
  {
  }
}
