/**
 * The backward-compatible instrumentation module (`instrumentation.py`):
 * one `instrument_<name>` / `uninstrument_<name>` pair per supported
 * provider on top of the provider registry, plus the set of provider
 * names it reports as instrumented.
 */
module PyInstrumentation {
  import opened Wrappers
  import opened PyValues
  import opened PyProviders

  /** The registry's cache and `_instrumented_providers`. */
  datatype State = State(cache: Cache, instrumented: set<string>)

  /**
   * `instrument_<name>(tracer, metrics, context)`: instrument through the
   * registry, then add the name to the set. An exception from the
   * adapter's `instrument()` propagates before the name is added.
   */
  function InstrumentNamed(s: State, name: string, h: Handles, failures: map<string, PyException>)
    : (State, seq<Effect>, Option<PyException>)
  {
    var (c, effects, raised) := InstrumentProvider(s.cache, name, h, failures);
    (State(c, if raised.Some? then s.instrumented else s.instrumented + {name}), effects, raised)
  }

  /**
   * The name is reported as instrumented afterwards exactly when the
   * adapter's `instrument()` did not raise, whether or not the provider's
   * library was there to patch; no other name is added or removed.
   */
  lemma InstrumentNamedProperties(s: State, name: string, h: Handles, failures: map<string, PyException>)
    ensures var (s', _, raised) := InstrumentNamed(s, name, h, failures);
            && (raised.None? ==> s'.instrumented == s.instrumented + {name})
            && (raised.Some? ==> s'.instrumented == s.instrumented && IsSupported(name) && name in failures)
            && s'.cache == InstrumentProvider(s.cache, name, h, failures).0
  {
    InstrumentProviderProperties(s.cache, name, h, failures);
  }

  /** `uninstrument_<name>()`: uninstrument through the registry, then discard the name. */
  function UninstrumentNamed(s: State, name: string): (State, seq<Effect>) {
    var (c, effects) := UninstrumentProvider(s.cache, name);
    (State(c, s.instrumented - {name}), effects)
  }

  /**
   * The name is no longer reported, and no other name changes; a second
   * call changes nothing and calls nothing.
   */
  lemma UninstrumentNamedIdempotent(s: State, name: string)
    ensures var (s1, _) := UninstrumentNamed(s, name);
            && s1.instrumented == s.instrumented - {name}
            && name !in s1.cache
            && UninstrumentNamed(s1, name) == (s1, [])
  {
    var (s1, _) := UninstrumentNamed(s, name);
    assert s1.instrumented - {name} == s1.instrumented;
  }

  /**
   * `instrument_all(tracer, metrics, context, providers)`: instrument the
   * list, or every supported provider, through the registry, then add the
   * whole list to the set.
   */
  function InstrumentAll(s: State, h: Handles, failures: map<string, PyException>, providers: Option<seq<string>>)
    : (State, seq<Effect>)
  {
    var (c, effects) := InstrumentAllProviders(s.cache, h, failures, providers);
    var names := providers.GetOr(GetSupportedProviders());
    (State(c, s.instrumented + set n | n in names), effects)
  }

  /**
   * With no list every supported provider is added; with a list exactly
   * its names are added, unsupported ones included and failing ones too,
   * since the registry swallows the adapters' exceptions.
   */
  lemma InstrumentAllProperties(s: State, h: Handles, failures: map<string, PyException>, providers: Option<seq<string>>)
    ensures var s' := InstrumentAll(s, h, failures, providers).0;
            && (providers.None? ==> forall n :: n in s'.instrumented <==> n in s.instrumented || IsSupported(n))
            && (providers.Some? ==> forall n :: n in s'.instrumented <==> n in s.instrumented || n in providers.value)
  {
  }

  /** `uninstrument_all()`: `order` is the registry cache's keys in insertion order. */
  function UninstrumentAll(s: State, order: seq<string>): (State, seq<Effect>)
    requires Enumerates(order, s.cache)
  {
    var (c, effects) := UninstrumentEach(s.cache, order);
    (State(c, {}), effects)
  }

  /** Afterwards nothing is reported as instrumented and nothing is cached. */
  lemma UninstrumentAllEmpties(s: State, order: seq<string>)
    requires Enumerates(order, s.cache)
    ensures var (s', effects) := UninstrumentAll(s, order);
            && s'.instrumented == {} && s'.cache == map[]
            && |effects| == |order|
            && !IsProviderInstrumented(s', "openai")
  {
    UninstrumentEachProperties(s.cache, order);
  }

  /** `get_instrumented_providers()`: a copy of the set, which as a value cannot alias the state. */
  function GetInstrumentedProviders(s: State): set<string> {
    s.instrumented
  }

  /** `is_provider_instrumented(name)`. */
  function IsProviderInstrumented(s: State, name: string): bool {
    name in s.instrumented
  }

  /**
   * A name is reported as instrumented exactly when it is in the reported
   * set: after its `instrument_<name>` returned normally, or after an
   * `instrument_all` that listed it, until its `uninstrument_<name>` or
   * `uninstrument_all`.
   */
  lemma IsProviderInstrumentedLifecycle(s: State, name: string, h: Handles, failures: map<string, PyException>)
    ensures IsProviderInstrumented(s, name) <==> name in GetInstrumentedProviders(s)
    ensures var (s1, _, raised) := InstrumentNamed(s, name, h, failures);
            && (raised.None? ==> IsProviderInstrumented(s1, name))
            && !IsProviderInstrumented(UninstrumentNamed(s1, name).0, name)
  {
  }
}
