/**
 * The Go SDK's provider instrumentations (`providers.go`): a registry of
 * instrumentations by name, the OpenAI and Anthropic instrumentations
 * with their method-name checks, and the shared base that gates spans and
 * metrics on being initialized with a client.
 */
module GoProviders {
  import opened Wrappers
  import opened GoValues
  import GoErrors
  import GoMetrics
  import GoTracer
  import GoClient

  /** A module handed to `Instrument`: nil, or a value whose type has these method names. */
  datatype Module = NilModule | Typed(methods: set<string>)

  /** Which built-in instrumentation it is. */
  datatype ProviderKind = OpenAIKind | AnthropicKind

  /** A provider instrumentation and its base's state: the `Client` it was given and the enabled flag. */
  datatype Provider = Provider(kind: ProviderKind, name: string, client: GoClient.ClientRef, enabled: bool)

  /** `OpenAIWrapper` or `AnthropicWrapper`: the module and the instrumentation that wrapped it. */
  datatype Wrapper = Wrapper(kind: ProviderKind, target: Module)

  /** `NewOpenAIInstrumentation()` and `NewAnthropicInstrumentation()`. */
  function NewOpenAIInstrumentation(): Provider { Provider(OpenAIKind, "openai", GoClient.NilClient, false) }
  function NewAnthropicInstrumentation(): Provider { Provider(AnthropicKind, "anthropic", GoClient.NilClient, false) }

  /** The method names each instrumentation looks for. */
  function MethodsOf(kind: ProviderKind): set<string> {
    match kind
    case OpenAIKind => {"CreateChatCompletion", "CreateCompletion", "CreateEmbedding"}
    case AnthropicKind => {"CreateMessage", "CreateCompletion"}
  }

  /** `CanInstrument(module)`: a typed module with one of the looked-for methods. */
  function CanInstrument(kind: ProviderKind, m: Module): (ok: bool)
    ensures ok <==> m.Typed? && exists name :: name in MethodsOf(kind) && name in m.methods
  {
    if m.Typed? then SharedName(MethodsOf(kind), m.methods); MethodsOf(kind) * m.methods != {} else false
  }

  /** Two sets of names meet exactly when some name is in both. */
  lemma SharedName(a: set<string>, b: set<string>)
    ensures a * b != {} <==> exists name :: name in a && name in b
  {
    if a * b != {} {
      var name :| name in a * b;
      assert name in a && name in b;
    }
    if exists name :: name in a && name in b {
      var name :| name in a && name in b;
      assert name in a * b;
    }
  }

  /** A client with `CreateCompletion` is taken by both instrumentations; nil by neither. */
  lemma CanInstrumentExamples(kind: ProviderKind, methods: set<string>)
    ensures "CreateCompletion" in methods ==> CanInstrument(kind, Typed(methods))
    ensures !CanInstrument(kind, NilModule)
    ensures (CanInstrument(AnthropicKind, Typed(methods)) && !CanInstrument(OpenAIKind, Typed(methods)))
            ==> "CreateMessage" in methods
  {
    if "CreateCompletion" in methods {
      assert "CreateCompletion" in MethodsOf(kind);
    }
  }

  /** `ProviderRegistry`. */
  type Registry = map<string, Provider>

  /** `registry.Register(provider)`: filed under its name, replacing any provider of that name. */
  function Register(r: Registry, p: Provider): (r': Registry)
    ensures r'.Keys == r.Keys + {p.name} && r'[p.name] == p
    ensures forall n :: n in r && n != p.name ==> r'[n] == r[n]
  {
    r[p.name := p]
  }

  /** `registry.Get(name)`. */
  function Get(r: Registry, name: string): Option<Provider> {
    if name in r then Some(r[name]) else None
  }

  /** A registered provider is found under its name until another of that name replaces it. */
  lemma RegisterThenGet(r: Registry, p: Provider, q: Provider, name: string)
    ensures Get(Register(r, p), p.name) == Some(p)
    ensures name != p.name ==> Get(Register(r, p), name) == Get(r, name)
    ensures q.name == p.name ==> Get(Register(Register(r, p), q), p.name) == Some(q)
  {
  }

  /** `registry.List()`: every registered name once, in the order Go's map iteration picks. */
  method List(r: Registry) returns (names: seq<string>)
    ensures Enumerates(names, r.Keys)
    ensures |names| == |r|
  {
    names := [];
    var rest := r.Keys;
    while rest != {}
      invariant rest <= r.Keys
      invariant (set k | k in names) == r.Keys - rest
      invariant forall i, j :: 0 <= i < j < |names| ==> names[i] != names[j]
      invariant |names| + |rest| == |r.Keys|
      decreases |rest|
    {
      var name :| name in rest;
      assert (set k | k in names + [name]) == (set k | k in names) + {name};
      names := names + [name];
      rest := rest - {name};
    }
  }

  /** `registry.Instrument(name, module)`. */
  function Instrument(r: Registry, name: string, m: Module): Result<Wrapper, GoErrors.GoError> {
    match Get(r, name)
    case None => Err(GoErrors.Plain("provider " + name + " not found"))
    case Some(p) =>
      if !CanInstrument(p.kind, m) then Err(GoErrors.Plain("module cannot be instrumented by provider " + name))
      else Ok(Wrapper(p.kind, m))
  }

  /**
   * Instrumenting fails with "not found" for an unregistered name, with
   * "cannot be instrumented" when the registered provider rejects the
   * module, and otherwise wraps the module with that provider.
   */
  lemma InstrumentProperties(r: Registry, name: string, m: Module)
    ensures name !in r ==> Instrument(r, name, m) == Err(GoErrors.Plain("provider " + name + " not found"))
    ensures name in r && !CanInstrument(r[name].kind, m) ==>
              Instrument(r, name, m) == Err(GoErrors.Plain("module cannot be instrumented by provider " + name))
    ensures Instrument(r, name, m).Ok? <==> name in r && CanInstrument(r[name].kind, m)
    ensures Instrument(r, name, m).Ok? ==> Instrument(r, name, m).value == Wrapper(r[name].kind, m)
  {
  }

  /** `GetDefaultProviders()`. */
  function GetDefaultProviders(): seq<Provider> {
    [NewOpenAIInstrumentation(), NewAnthropicInstrumentation()]
  }

  /** `RegisterDefaultProviders(registry)`: each default provider in turn. */
  function RegisterAll(r: Registry, ps: seq<Provider>): Registry
    decreases |ps|
  {
    if |ps| == 0 then r else RegisterAll(Register(r, ps[0]), ps[1..])
  }

  function RegisterDefaultProviders(r: Registry): Registry {
    RegisterAll(r, GetDefaultProviders())
  }

  /**
   * Registering the defaults adds "openai" and "anthropic", new and not
   * yet enabled, replacing providers of those names, and keeps every other
   * registration.
   */
  lemma RegisterDefaultProvidersProperties(r: Registry)
    ensures var r' := RegisterDefaultProviders(r);
            && r'.Keys == r.Keys + {"openai", "anthropic"}
            && r'["openai"] == NewOpenAIInstrumentation() && r'["anthropic"] == NewAnthropicInstrumentation()
            && !r'["openai"].enabled && !r'["anthropic"].enabled
            && forall n :: n in r && n !in {"openai", "anthropic"} ==> r'[n] == r[n]
  {
    var ps := GetDefaultProviders();
    assert ps[1..][1..] == [];
    assert RegisterDefaultProviders(r) == Register(Register(r, ps[0]), ps[1]);
  }

  /**
   * `Initialize(client)`: remembers whatever client it is given and sets
   * the enabled flag; it never fails. The provider is enabled afterwards
   * exactly when the client is not the nil interface.
   */
  function Initialize(p: Provider, client: GoClient.ClientRef): (r: (Provider, Option<GoErrors.GoError>))
    ensures IsEnabled(r.0) <==> client != GoClient.NilClient
    ensures r.1 == None && r.0.client == client && r.0.name == p.name && r.0.kind == p.kind
  {
    (p.(client := client, enabled := true), None)
  }

  /** `Shutdown()`: disables and keeps the client; it never fails. */
  function Shutdown(p: Provider): (r: (Provider, Option<GoErrors.GoError>))
    ensures !IsEnabled(r.0) && r.1 == None && r.0.client == p.client
  {
    (p.(enabled := false), None)
  }

  /** `isEnabled()`: the flag is set and the client interface is not nil. */
  predicate IsEnabled(p: Provider) {
    p.enabled && p.client != GoClient.NilClient
  }

  /**
   * A shut-down provider comes back with `Initialize` given a client, and
   * shutting down keeps that client. `Initialize(nil)` leaves a provider
   * disabled, and a new one is off until initialized.
   */
  lemma LifecycleProperties(p: Provider, client: GoClient.ClientRef)
    ensures client != GoClient.NilClient ==> IsEnabled(Initialize(Shutdown(p).0, client).0)
    ensures Shutdown(Initialize(p, client).0).0.client == client
    ensures !IsEnabled(Initialize(p, GoClient.NilClient).0)
    ensures !IsEnabled(NewOpenAIInstrumentation()) && !IsEnabled(NewAnthropicInstrumentation())
  {
  }

  /** How a call through the stored client ends: it returns, or it dereferences a nil pointer and panics. */
  datatype Call<T> = Returned(value: T) | NilDereference

  /**
   * What `createLLMSpan` does: hand back the context's span, or start an
   * LLM span through the tracer of client `client`.
   */
  datatype SpanDecision = CurrentSpan | StartLLMSpan(name: string, opts: GoTracer.LLMSpanOptions, client: nat)

  /**
   * `createLLMSpan(ctx, name, opts)`. A disabled provider hands back the
   * context's span. An enabled one calls `Tracer()` on its client, which
   * panics when the interface holds a nil pointer.
   */
  function CreateLLMSpan(p: Provider, name: string, opts: GoTracer.LLMSpanOptions): (c: Call<SpanDecision>)
    ensures c == Returned(CurrentSpan) <==> !IsEnabled(p)
    ensures c.NilDereference? <==> IsEnabled(p) && GoClient.HoldsNilPointer(p.client)
    ensures c.Returned? && c.value.StartLLMSpan? ==>
              c.value.name == name && c.value.opts == opts && p.client == GoClient.UntraceClient(Some(c.value.client))
  {
    if !IsEnabled(p) then Returned(CurrentSpan)
    else match GoClient.Receiver(p.client)
      case None => NilDereference
      case Some(h) => Returned(StartLLMSpan(name, opts, h))
  }

  /** A call on the client's `Metrics()` recorder. */
  datatype MetricsCall =
    | RecordErrorCall(err: GoErrors.GoError, attrs: GoMap)
    | RecordTokenUsageCall(usage: GoMetrics.TokenUsage)
    | RecordCostCall(cost: GoMetrics.Cost)
    | RecordLatencyCall(durationNs: int, attrs: GoMap)

  /** The attributes `recordMetrics` passes: the usage's provider and model. */
  function UsageAttributes(u: GoMetrics.TokenUsage): GoMap {
    map["provider" := GString(u.provider), "model" := GString(u.model)]
  }

  /**
   * `recordMetrics(usage, cost, duration, err)`: the recorder calls made, in
   * order. The first `Metrics()` call panics when the client interface holds
   * a nil pointer, before anything is recorded.
   */
  function RecordMetrics(p: Provider, u: GoMetrics.TokenUsage, c: GoMetrics.Cost, durationNs: int, err: Option<GoErrors.GoError>)
    : Call<seq<MetricsCall>>
  {
    if !IsEnabled(p) then Returned([])
    else if GoClient.Receiver(p.client).None? then NilDereference
    else if err.Some? then Returned([RecordErrorCall(err.value, UsageAttributes(u))])
    else Returned([RecordTokenUsageCall(u), RecordCostCall(c), RecordLatencyCall(durationNs, UsageAttributes(u))])
  }

  /** The measurements a recorder call produces, the attribute maps visited in `order`. */
  function Measurements(call: MetricsCall, order: seq<string>): seq<GoMetrics.Measurement>
    requires call.RecordErrorCall? || call.RecordLatencyCall? ==> Enumerates(order, call.attrs.Keys)
  {
    match call
    case RecordErrorCall(err, attrs) => [GoMetrics.RecordError(err, attrs, order)]
    case RecordTokenUsageCall(u) => GoMetrics.RecordTokenUsage(u)
    case RecordCostCall(c) => GoMetrics.RecordCost(c)
    case RecordLatencyCall(ns, attrs) => [GoMetrics.RecordLatency(ns, attrs, order)]
  }

  /**
   * A disabled provider records nothing, and an enabled one whose client
   * holds a nil pointer panics. An enabled one with a live client records
   * exactly one error, tagged with provider and model and the error's text,
   * when the call failed; otherwise token usage, cost and latency, and no
   * error.
   */
  lemma RecordMetricsProperties(p: Provider, u: GoMetrics.TokenUsage, c: GoMetrics.Cost, durationNs: int,
                                err: Option<GoErrors.GoError>, order: seq<string>)
    requires Enumerates(order, {"provider", "model"})
    ensures var out := RecordMetrics(p, u, c, durationNs, err);
            && (!IsEnabled(p) <==> out == Returned([]))
            && (out.NilDereference? <==> IsEnabled(p) && GoClient.HoldsNilPointer(p.client))
            && (IsEnabled(p) && !GoClient.HoldsNilPointer(p.client) && err.Some? ==>
                  && out.Returned? && |out.value| == 1
                  && var m := Measurements(out.value[0], order)[0];
                     m.instrument == "llm.errors" && |m.attributes| == 3
                     && m.attributes[2] == KeyValue("error.type", AString(GoErrors.ErrorText(err.value)))
                     && KeyValue("provider", AString(u.provider)) in m.attributes
                     && KeyValue("model", AString(u.model)) in m.attributes)
            && (IsEnabled(p) && !GoClient.HoldsNilPointer(p.client) && err.None? ==>
                  && out.Returned? && var calls := out.value;
                     && |calls| == 3 && (forall i :: 0 <= i < 3 ==> !calls[i].RecordErrorCall?)
                     && calls[0] == RecordTokenUsageCall(u) && calls[1] == RecordCostCall(c)
                     && Measurements(calls[2], order)[0].instrument == "llm.latency"
                     && Measurements(calls[2], order)[0].amount * 1000000000.0 == durationNs as real)
  {
    var attrs := UsageAttributes(u);
    assert attrs.Keys == {"provider", "model"};
    if IsEnabled(p) && !GoClient.HoldsNilPointer(p.client) && err.Some? {
      var m := GoMetrics.RecordError(err.value, attrs, order);
      var kvs := GoMetrics.BuildAttributes(attrs, order);
      assert m.attributes[..2] == kvs;
      GoMetrics.BuildAttributesHasString(attrs, order, "provider", u.provider);
      GoMetrics.BuildAttributesHasString(attrs, order, "model", u.model);
    }
  }

  /**
   * Initializing a provider with `GetInstance()` while there is no global
   * client (before `Init`, or after the global client was shut down)
   * enables it, since the interface holds a nil pointer and is not nil. Its
   * next `createLLMSpan` or `recordMetrics` then panics instead of doing
   * nothing.
   */
  lemma InitializeWithoutGlobalClientPanics(p: Provider, s: GoClient.State, name: string, opts: GoTracer.LLMSpanOptions,
                                            u: GoMetrics.TokenUsage, c: GoMetrics.Cost, durationNs: int,
                                            err: Option<GoErrors.GoError>)
    requires s.global.None?
    ensures var q := Initialize(p, GoClient.GetInstance(s)).0;
            && IsEnabled(q)
            && CreateLLMSpan(q, name, opts) == NilDereference
            && RecordMetrics(q, u, c, durationNs, err) == NilDereference
  {
  }

  /**
   * With the checked `GetInstance`, initializing never leads to a panic: a
   * provider given the instance while there is no global client stays
   * disabled and does nothing, and one given the global client starts its
   * spans through that client.
   */
  lemma InitializeWithCheckedInstance(p: Provider, s: GoClient.State, name: string, opts: GoTracer.LLMSpanOptions,
                                      u: GoMetrics.TokenUsage, c: GoMetrics.Cost, durationNs: int,
                                      err: Option<GoErrors.GoError>)
    ensures var q := Initialize(p, GoClient.GetInstanceChecked(s)).0;
            && (IsEnabled(q) <==> s.global.Some?)
            && !CreateLLMSpan(q, name, opts).NilDereference?
            && !RecordMetrics(q, u, c, durationNs, err).NilDereference?
            && (s.global.None? ==> CreateLLMSpan(q, name, opts) == Returned(CurrentSpan)
                                   && RecordMetrics(q, u, c, durationNs, err) == Returned([]))
            && (s.global.Some? ==>
                  CreateLLMSpan(q, name, opts) == Returned(StartLLMSpan(name, opts, s.global.value)))
  {
  }
}
