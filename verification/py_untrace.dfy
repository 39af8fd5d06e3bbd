/**
 * The Python SDK's entry point (`untrace.py`): the `Untrace` object, the
 * module-level singleton behind `init`, `get_untrace` and `shutdown`, and
 * the choice of providers to instrument automatically. The OpenTelemetry
 * tracer provider and span processor it wires up are represented only by
 * the numbers it passes them.
 */
module PyUntrace {
  import opened Wrappers
  import opened PyValues
  import OrderedDict
  import PyTypes
  import PyProviders
  import PyInstrumentation

  /** An `Untrace` object: its identity and its configuration. */
  datatype Untrace = Untrace(id: nat, config: PyTypes.Config)

  /** `_global_state`: the stored instance and the `is_initialized` flag. */
  datatype Global = Global(instance: Option<Untrace>, isInitialized: bool)

  const Initial := Global(None, false)

  /** Everything `init` touches: the singleton and the instrumentation registry. */
  datatype World = World(global: Global, registry: PyInstrumentation.State)

  /** The span processor's queue bound: twice the batch size, and never below ten. */
  function MaxQueueSize(maxBatchSize: int): (q: int)
    ensures q >= 10 && q >= 2 * maxBatchSize
    ensures q == 10 || q == 2 * maxBatchSize
  {
    if maxBatchSize * 2 >= 10 then maxBatchSize * 2 else 10
  }

  /** The resource the tracer provider is created with: service name and version, then the caller's attributes. */
  function ResourceAttributes(c: PyTypes.Config): Attrs {
    OrderedDict.Update([("service.name", PStr("untrace-app")), ("service.version", PStr(c.version))],
                       c.resourceAttributes)
  }

  /**
   * The service name is "untrace-app" and the version the configured one,
   * unless the configured resource attributes give their own, which win;
   * every configured resource attribute is there.
   */
  lemma ResourceAttributesProperties(c: PyTypes.Config)
    ensures var r := ResourceAttributes(c);
            && OrderedDict.Get(r, "service.name") ==
               (if "service.name" in OrderedDict.Keys(c.resourceAttributes)
                then OrderedDict.Get(c.resourceAttributes, "service.name") else Some(PStr("untrace-app")))
            && OrderedDict.Get(r, "service.version") ==
               (if "service.version" in OrderedDict.Keys(c.resourceAttributes)
                then OrderedDict.Get(c.resourceAttributes, "service.version") else Some(PStr(c.version)))
            && (forall k :: k in OrderedDict.Keys(c.resourceAttributes) ==>
                  OrderedDict.Get(r, k) == OrderedDict.Get(c.resourceAttributes, k))
  {
    var base := [("service.name", PStr("untrace-app")), ("service.version", PStr(c.version))];
    assert OrderedDict.Keys(base) == ["service.name", "service.version"];
    assert OrderedDict.Get(base, "service.name") == Some(PStr("untrace-app"));
    assert OrderedDict.Get(base, "service.version") == Some(PStr(c.version));
    OrderedDict.UpdateProperties(base, c.resourceAttributes);
  }

  /** `[p for p in providers if p in supported_providers]`. */
  function SupportedOnly(providers: seq<string>): seq<string>
    decreases |providers|
  {
    if |providers| == 0 then []
    else (if PyProviders.IsSupported(providers[0]) then [providers[0]] else []) + SupportedOnly(providers[1..])
  }

  /** Filtering keeps exactly the supported names of the list. */
  lemma {:induction false} SupportedOnlyMembers(providers: seq<string>)
    ensures forall p :: p in SupportedOnly(providers) <==> p in providers && PyProviders.IsSupported(p)
    ensures |SupportedOnly(providers)| <= |providers|
    decreases |providers|
  {
    if providers != [] {
      SupportedOnlyMembers(providers[1..]);
      assert forall p :: p in providers <==> p == providers[0] || p in providers[1..] by {
        assert providers == [providers[0]] + providers[1..];
      }
    }
  }

  /** Filtering keeps the list's order: it distributes over concatenation. */
  lemma {:induction false} SupportedOnlyConcat(a: seq<string>, b: seq<string>)
    ensures SupportedOnly(a + b) == SupportedOnly(a) + SupportedOnly(b)
    decreases |a|
  {
    if a == [] {
      assert a + b == b;
    } else {
      assert (a + b)[1..] == a[1..] + b;
      SupportedOnlyConcat(a[1..], b);
    }
  }

  /** A list of supported names only is left as it is. */
  lemma {:induction false} SupportedOnlyKeeps(providers: seq<string>)
    requires forall i :: 0 <= i < |providers| ==> PyProviders.IsSupported(providers[i])
    ensures SupportedOnly(providers) == providers
    decreases |providers|
  {
    if providers != [] {
      SupportedOnlyKeeps(providers[1..]);
    }
  }

  /**
   * `_auto_instrument`'s choice: nothing when auto-instrumentation is
   * disabled; every supported provider when the list holds "all"; the
   * list's supported names otherwise.
   */
  function AutoInstrumentSelection(c: PyTypes.Config): Option<seq<string>> {
    if c.disableAutoInstrumentation then None
    else if "all" in c.providers then Some(PyProviders.GetSupportedProviders())
    else Some(SupportedOnly(c.providers))
  }

  /** `_auto_instrument()`, with `instrument_all` on the registry; a failure there is logged and swallowed. */
  function AutoInstrument(reg: PyInstrumentation.State, c: PyTypes.Config, h: PyProviders.Handles,
                          failures: map<string, PyException>): (PyInstrumentation.State, seq<PyProviders.Effect>)
  {
    match AutoInstrumentSelection(c)
    case None => (reg, [])
    case Some(names) => PyInstrumentation.InstrumentAll(reg, h, failures, Some(names))
  }

  /**
   * A disabled configuration instruments nothing. Otherwise a provider is
   * reported as instrumented afterwards exactly when it was before, or it
   * is supported and either "all" or its own name is configured, whether
   * or not its adapter raised.
   */
  lemma AutoInstrumentProperties(reg: PyInstrumentation.State, c: PyTypes.Config, h: PyProviders.Handles,
                                 failures: map<string, PyException>)
    ensures c.disableAutoInstrumentation ==> AutoInstrument(reg, c, h, failures) == (reg, [])
    ensures !c.disableAutoInstrumentation ==>
              forall n :: n in AutoInstrument(reg, c, h, failures).0.instrumented <==>
                n in reg.instrumented || (PyProviders.IsSupported(n) && ("all" in c.providers || n in c.providers))
  {
    SupportedOnlyMembers(c.providers);
    var sel := AutoInstrumentSelection(c);
    if sel.Some? {
      PyInstrumentation.InstrumentAllProperties(reg, h, failures, sel);
    }
  }

  /**
   * `Untrace(config)`: auto-instrument unless disabled, then store the new
   * object as the instance, leaving the flag as it is. `failure` is an
   * exception the OpenTelemetry set-up raises before that, if any.
   */
  function Construct(w: World, id: nat, c: PyTypes.Config, h: PyProviders.Handles,
                     failures: map<string, PyException>, failure: Option<PyException>)
    : (World, Result<Untrace, PyException>, seq<PyProviders.Effect>)
  {
    if failure.Some? then (w, Err(failure.value), [])
    else
      var (reg, effects) := AutoInstrument(w.registry, c, h, failures);
      var u := Untrace(id, c);
      (World(Global(Some(u), w.global.isInitialized), reg), Ok(u), effects)
  }

  /**
   * `init(config)`: the stored instance when initialized with one; a
   * `RuntimeError` when initialized without one; otherwise set the flag
   * and construct.
   */
  function Init(w: World, id: nat, c: PyTypes.Config, h: PyProviders.Handles,
                failures: map<string, PyException>, failure: Option<PyException>)
    : (World, Result<Untrace, PyException>, seq<PyProviders.Effect>)
  {
    if w.global.isInitialized && w.global.instance.Some? then (w, Ok(w.global.instance.value), [])
    else if w.global.isInitialized then
      (w, Err(PyException("RuntimeError", "Untrace SDK is already initialized but instance is null.")), [])
    else
      var flagged := World(Global(w.global.instance, true), w.registry);
      Construct(flagged, id, c, h, failures, failure)
  }

  /**
   * Initializing from scratch sets the flag and stores, and returns, a new
   * object with the given configuration.
   */
  lemma InitFirst(w: World, id: nat, c: PyTypes.Config, h: PyProviders.Handles, failures: map<string, PyException>)
    requires !w.global.isInitialized
    ensures var (w', r, _) := Init(w, id, c, h, failures, None);
            && r == Ok(Untrace(id, c))
            && w'.global == Global(Some(Untrace(id, c)), true)
  {
  }

  /**
   * Once initialized with an instance, `init` returns that very instance,
   * whatever configuration it is given, and changes and instruments
   * nothing.
   */
  lemma InitReturnsExisting(w: World, id: nat, c: PyTypes.Config, h: PyProviders.Handles,
                            failures: map<string, PyException>, failure: Option<PyException>)
    requires w.global.isInitialized && w.global.instance.Some?
    ensures Init(w, id, c, h, failures, failure) == (w, Ok(w.global.instance.value), [])
  {
  }

  /**
   * A second `init` after a first one succeeded gives back the first
   * one's object.
   */
  lemma InitTwice(w: World, id1: nat, c1: PyTypes.Config, id2: nat, c2: PyTypes.Config, h: PyProviders.Handles,
                  failures: map<string, PyException>, failure: Option<PyException>)
    requires !w.global.isInitialized
    ensures var (w1, r1, _) := Init(w, id1, c1, h, failures, None);
            var (w2, r2, effects) := Init(w1, id2, c2, h, failures, failure);
            r2 == r1 && w2 == w1 && effects == []
  {
  }

  /**
   * If construction raises, the flag stays set with no instance, and from
   * then on every `init` raises `RuntimeError` and changes nothing.
   */
  lemma InitFailureSticks(w: World, id: nat, c: PyTypes.Config, h: PyProviders.Handles,
                          failures: map<string, PyException>, e: PyException,
                          id2: nat, c2: PyTypes.Config, failure2: Option<PyException>)
    requires !w.global.isInitialized && w.global.instance.None?
    ensures var (w1, r1, _) := Init(w, id, c, h, failures, Some(e));
            && r1 == Err(e) && w1.global == Global(None, true)
            && var (w2, r2, _) := Init(w1, id2, c2, h, failures, failure2);
               && w2 == w1 && r2.Err? && r2.error.className == "RuntimeError"
  {
  }

  /** `Untrace.get_instance()`. */
  function GetInstance(g: Global): Option<Untrace> {
    g.instance
  }

  /** `get_untrace()`: the stored instance, or a `RuntimeError` when there is none. */
  function GetUntrace(g: Global): Result<Untrace, PyException> {
    if g.instance.None? then Err(PyException("RuntimeError", "Untrace SDK not initialized. Call init() first."))
    else Ok(g.instance.value)
  }

  /** `get_untrace` raises exactly when no instance is stored, and otherwise returns the one `get_instance` gives. */
  lemma GetUntraceProperties(g: Global)
    ensures GetUntrace(g).Err? <==> GetInstance(g).None?
    ensures GetUntrace(g).Err? ==> GetUntrace(g).error.className == "RuntimeError"
    ensures GetUntrace(g).Ok? ==> Some(GetUntrace(g).value) == GetInstance(g)
  {
  }

  /** `self.shutdown()`: the singleton is reset only when `self` is the stored instance. */
  function Shutdown(g: Global, self: Untrace): Global {
    if g.instance == Some(self) then Initial else g
  }

  /**
   * Shutting down the stored instance clears it and the flag, so
   * `get_untrace` raises and the next `init` constructs afresh; shutting
   * down any other object leaves the singleton as it was.
   */
  lemma ShutdownProperties(g: Global, self: Untrace)
    ensures g.instance == Some(self) ==> Shutdown(g, self) == Global(None, false) && GetUntrace(Shutdown(g, self)).Err?
    ensures g.instance != Some(self) ==> Shutdown(g, self) == g
  {
  }

  /** After `init` and `shutdown` of its object, `init` with another configuration stores a new object. */
  lemma InitAfterShutdown(w: World, id1: nat, c1: PyTypes.Config, id2: nat, c2: PyTypes.Config,
                          h: PyProviders.Handles, failures: map<string, PyException>)
    requires !w.global.isInitialized
    ensures var (w1, r1, _) := Init(w, id1, c1, h, failures, None);
            r1.Ok? &&
            var w2 := World(Shutdown(w1.global, r1.value), w1.registry);
            var (w3, r3, _) := Init(w2, id2, c2, h, failures, None);
            r3 == Ok(Untrace(id2, c2)) && GetUntrace(w3.global) == Ok(Untrace(id2, c2))
  {
  }

  /** `self.instrument(provider_name, module)`: only "openai" is accepted, and the module comes back as it was. */
  function InstrumentManually<M>(name: string, lib: M): (r: Result<M, PyException>)
    ensures r.Ok? <==> name == "openai"
    ensures r.Ok? ==> r.value == lib
    ensures r.Err? ==> r.error == PyException("ValueError", "Unknown provider: " + name)
  {
    if name != "openai" then Err(PyException("ValueError", "Unknown provider: " + name)) else Ok(lib)
  }
}
