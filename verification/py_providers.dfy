/**
 * The provider registry (`providers/__init__.py`): the supported provider
 * names with their adapter classes, and a cache holding at most one
 * adapter per name. What an adapter's `instrument()` and `uninstrument()`
 * do to a library is modelled per provider; here they are recorded as
 * calls, and an `instrument()` that raises is described by a map from
 * provider name to the exception it raises.
 */
module PyProviders {
  import opened Wrappers
  import opened PyValues

  /** `PROVIDER_INSTRUMENTATIONS`, in its insertion order. */
  const Registry: seq<(string, string)> :=
    [("openai", "OpenAIInstrumentation"), ("anthropic", "AnthropicInstrumentation"),
     ("google", "GoogleInstrumentation"), ("microsoft", "MicrosoftInstrumentation"),
     ("aws", "AWSInstrumentation"), ("cohere", "CohereInstrumentation")]

  /** `get_supported_providers()`: the registry's keys, in order. */
  function GetSupportedProviders(): (names: seq<string>)
    ensures names == ["openai", "anthropic", "google", "microsoft", "aws", "cohere"]
  {
    seq(|Registry|, i requires 0 <= i < |Registry| => Registry[i].0)
  }

  predicate IsSupported(name: string) {
    name in GetSupportedProviders()
  }

  /** The adapter class registered under a supported name. */
  function ClassOf(name: string): (cls: string)
    requires IsSupported(name)
    ensures (name, cls) in Registry
  {
    var i :| 0 <= i < |Registry| && Registry[i].0 == name;
    Registry[i].1
  }

  /** The tracer, metrics and context objects an adapter is created with. */
  datatype Handles = Handles(tracer: nat, metrics: nat, context: nat)

  /** A created adapter: its class and the objects it was created with. */
  datatype Instance = Instance(className: string, handles: Handles)

  /** `_instrumentations`: provider name to its cached adapter. */
  type Cache = map<string, Instance>

  /** A call made on a cached adapter. */
  datatype Effect = InstrumentCalled(provider: string) | UninstrumentCalled(provider: string)

  /**
   * `get_provider_instrumentation(name, tracer, metrics, context)`: `None`
   * for a name not in the registry; otherwise the cached adapter, created
   * with the given objects the first time.
   */
  function GetProviderInstrumentation(cache: Cache, name: string, h: Handles): (Cache, Option<Instance>) {
    if !IsSupported(name) then (cache, None)
    else if name in cache then (cache, Some(cache[name]))
    else
      var inst := Instance(ClassOf(name), h);
      (cache[name := inst], Some(inst))
  }

  /**
   * An unknown name gives nothing and changes nothing. A supported name
   * gives the adapter the cache then holds under it: the one already
   * cached, with the cache unchanged, or a new one of the registered class
   * created with the given objects and added under that name alone.
   */
  lemma GetProviderInstrumentationProperties(cache: Cache, name: string, h: Handles)
    ensures !IsSupported(name) ==> GetProviderInstrumentation(cache, name, h) == (cache, None)
    ensures IsSupported(name) ==>
              var (c, r) := GetProviderInstrumentation(cache, name, h);
              && name in c && r == Some(c[name])
              && c.Keys == cache.Keys + {name}
              && (forall n :: n in cache ==> c[n] == cache[n])
              && (name !in cache ==> c[name] == Instance(ClassOf(name), h))
  {
  }

  /**
   * The adapter is created once: a later call returns the very adapter the
   * first returned, whatever objects it passes, and leaves the cache as
   * the first call left it.
   */
  lemma GetProviderInstrumentationCached(cache: Cache, name: string, h1: Handles, h2: Handles)
    requires IsSupported(name)
    ensures var (c1, r1) := GetProviderInstrumentation(cache, name, h1);
            GetProviderInstrumentation(c1, name, h2) == (c1, r1)
  {
  }

  /**
   * `instrument_provider(name, ...)`: get or create the adapter and call
   * its `instrument()`. The exception that call raises, if any, is the
   * third component; the adapter stays cached either way.
   */
  function InstrumentProvider(cache: Cache, name: string, h: Handles, failures: map<string, PyException>)
    : (Cache, seq<Effect>, Option<PyException>)
  {
    var (c, inst) := GetProviderInstrumentation(cache, name, h);
    if inst.None? then (c, [], None)
    else (c, [InstrumentCalled(name)], if name in failures then Some(failures[name]) else None)
  }

  /**
   * An unknown name changes nothing and raises nothing. A supported name
   * is cached afterwards, its adapter's `instrument()` is called once, and
   * the call raises exactly what that `instrument()` raises.
   */
  lemma InstrumentProviderProperties(cache: Cache, name: string, h: Handles, failures: map<string, PyException>)
    ensures !IsSupported(name) ==> InstrumentProvider(cache, name, h, failures) == (cache, [], None)
    ensures IsSupported(name) ==>
              var (c, effects, raised) := InstrumentProvider(cache, name, h, failures);
              && c == GetProviderInstrumentation(cache, name, h).0
              && effects == [InstrumentCalled(name)]
              && (raised.Some? <==> name in failures)
              && (raised.Some? ==> raised.value == failures[name])
  {
  }

  /**
   * `uninstrument_provider(name)`: a cached adapter is uninstrumented and
   * evicted; a name not cached is ignored.
   */
  function UninstrumentProvider(cache: Cache, name: string): (Cache, seq<Effect>) {
    if name in cache then (cache - {name}, [UninstrumentCalled(name)]) else (cache, [])
  }

  /**
   * A name not cached changes nothing. A cached one is uninstrumented once
   * and evicted, every other entry staying as it was; so a second call
   * does nothing, and a later `get` creates a fresh adapter.
   */
  lemma UninstrumentProviderProperties(cache: Cache, name: string, h: Handles)
    ensures name !in cache ==> UninstrumentProvider(cache, name) == (cache, [])
    ensures name in cache ==>
              var (c, effects) := UninstrumentProvider(cache, name);
              && effects == [UninstrumentCalled(name)]
              && c.Keys == cache.Keys - {name}
              && (forall n :: n in c ==> c[n] == cache[n])
              && UninstrumentProvider(c, name) == (c, [])
              && (IsSupported(name) ==> GetProviderInstrumentation(c, name, h).1 == Some(Instance(ClassOf(name), h)))
  {
  }

  /** The loop of `instrument_all_providers`: each name in turn, an exception logged and the loop carried on. */
  function InstrumentEach(cache: Cache, h: Handles, failures: map<string, PyException>, names: seq<string>)
    : (Cache, seq<Effect>)
    decreases |names|
  {
    if |names| == 0 then (cache, [])
    else
      var (c1, e1, _) := InstrumentProvider(cache, names[0], h, failures);
      var (c2, e2) := InstrumentEach(c1, h, failures, names[1..]);
      (c2, e1 + e2)
  }

  /**
   * `instrument_all_providers(tracer, metrics, context, providers)`: every
   * supported provider when `providers` is `None`.
   */
  function InstrumentAllProviders(cache: Cache, h: Handles, failures: map<string, PyException>,
                                  providers: Option<seq<string>>): (Cache, seq<Effect>)
  {
    InstrumentEach(cache, h, failures, providers.GetOr(GetSupportedProviders()))
  }

  /**
   * Instrumenting a list calls `instrument()` on the adapter of exactly the
   * supported names the list holds, whichever of them raise.
   */
  lemma {:induction false} InstrumentEachCalls(cache: Cache, h: Handles, failures: map<string, PyException>,
                                               names: seq<string>)
    ensures var effects := InstrumentEach(cache, h, failures, names).1;
            && (forall e :: e in effects ==> e.InstrumentCalled?)
            && (forall n :: InstrumentCalled(n) in effects <==> n in names && IsSupported(n))
    decreases |names|
  {
    if names != [] {
      var (c1, e1, _) := InstrumentProvider(cache, names[0], h, failures);
      InstrumentProviderProperties(cache, names[0], h, failures);
      InstrumentEachCalls(c1, h, failures, names[1..]);
      assert forall n :: n in names <==> n == names[0] || n in names[1..] by {
        assert names == [names[0]] + names[1..];
      }
    }
  }

  /**
   * Afterwards exactly the supported names of the list are cached besides
   * the ones that were, earlier entries unchanged and new ones created with
   * the given objects.
   */
  lemma {:induction false} InstrumentEachCache(cache: Cache, h: Handles, failures: map<string, PyException>,
                                               names: seq<string>)
    ensures var c := InstrumentEach(cache, h, failures, names).0;
            && c.Keys == cache.Keys + (set n | n in names && IsSupported(n))
            && (forall n :: n in cache ==> c[n] == cache[n])
            && (forall n :: n in c && n !in cache ==> c[n] == Instance(ClassOf(n), h))
    decreases |names|
  {
    if names != [] {
      var (c1, e1, _) := InstrumentProvider(cache, names[0], h, failures);
      InstrumentProviderProperties(cache, names[0], h, failures);
      GetProviderInstrumentationProperties(cache, names[0], h);
      InstrumentEachCache(c1, h, failures, names[1..]);
      assert names == [names[0]] + names[1..];
      assert (set n | n in names && IsSupported(n)) ==
             (if IsSupported(names[0]) then {names[0]} else {}) + (set n | n in names[1..] && IsSupported(n));
    }
  }

  /** With no list, every supported provider's adapter is created if need be and instrumented. */
  lemma InstrumentAllProvidersDefault(cache: Cache, h: Handles, failures: map<string, PyException>)
    ensures var (c, effects) := InstrumentAllProviders(cache, h, failures, None);
            && (forall n :: IsSupported(n) ==> n in c && InstrumentCalled(n) in effects)
            && (forall n :: n in c ==> n in cache || IsSupported(n))
  {
    InstrumentEachCalls(cache, h, failures, GetSupportedProviders());
    InstrumentEachCache(cache, h, failures, GetSupportedProviders());
  }

  /**
   * `uninstrument_all_providers()`: `order` is the cache's keys in
   * insertion order, which the loop walks.
   */
  function UninstrumentEach(cache: Cache, order: seq<string>): (Cache, seq<Effect>)
    decreases |order|
  {
    if |order| == 0 then (cache, [])
    else
      var (c1, e1) := UninstrumentProvider(cache, order[0]);
      var (c2, e2) := UninstrumentEach(c1, order[1..]);
      (c2, e1 + e2)
  }

  /** `order` lists each key of the cache exactly once. */
  predicate Enumerates(order: seq<string>, cache: Cache) {
    (forall i, j :: 0 <= i < j < |order| ==> order[i] != order[j]) && (set n | n in order) == cache.Keys
  }

  /**
   * Uninstrumenting every cached adapter, in order, calls `uninstrument()`
   * once on each and leaves the cache empty.
   */
  lemma {:induction false} UninstrumentEachProperties(cache: Cache, order: seq<string>)
    requires Enumerates(order, cache)
    ensures var (c, effects) := UninstrumentEach(cache, order);
            && c == map[]
            && |effects| == |order|
            && (forall i :: 0 <= i < |order| ==> effects[i] == UninstrumentCalled(order[i]))
    decreases |order|
  {
    if |order| > 0 {
      var c1 := cache - {order[0]};
      assert order[0] in cache by {
        assert order[0] in (set n | n in order);
      }
      assert UninstrumentProvider(cache, order[0]) == (c1, [UninstrumentCalled(order[0])]);
      EnumeratesTail(order, cache);
      UninstrumentEachProperties(c1, order[1..]);
      var e2 := UninstrumentEach(c1, order[1..]).1;
      assert UninstrumentEach(cache, order).1 == [UninstrumentCalled(order[0])] + e2;
      forall i | 0 <= i < |order|
        ensures UninstrumentEach(cache, order).1[i] == UninstrumentCalled(order[i])
      {
        if i > 0 {
          assert order[1..][i - 1] == order[i];
        }
      }
    } else {
      assert cache.Keys == {} by {
        assert (set n | n in order) == {};
      }
    }
  }

  /** Past its first name, an enumeration of a cache enumerates the cache without that name. */
  lemma EnumeratesTail(order: seq<string>, cache: Cache)
    requires Enumerates(order, cache) && |order| > 0
    ensures Enumerates(order[1..], cache - {order[0]})
  {
    var rest := order[1..];
    forall n | n in rest
      ensures n != order[0]
    {
      var j :| 0 <= j < |rest| && rest[j] == n;
      assert order[j + 1] == n;
    }
    assert order == [order[0]] + rest;
    assert (set n | n in rest) == (set n | n in order) - {order[0]};
  }
}
