/**
 * The Rust SDK's provider registry (`provider.rs`): providers stored by
 * name, each with an enabled flag, and the six default providers. A loop
 * over the registry's `HashMap` visits its names in an unspecified order,
 * given here as `order`.
 */
module RsProvider {
  import opened Wrappers
  import opened RsTypes
  import E = RsErrors

  type Registry = map<string, Provider>

  /** Every provider is stored under its own name, as `register` stores it. */
  predicate Valid(r: Registry) {
    forall n :: n in r ==> r[n].name == n
  }

  /** `ProviderRegistry::new()`. */
  function NewRegistry(): (r: Registry)
    ensures Valid(r) && |r| == 0
  {
    map[]
  }

  /** `register(provider)`: stored under its name, replacing any provider of that name. */
  function Register(r: Registry, p: Provider): Registry {
    r[p.name := p]
  }

  /** `get(name)`. */
  function Get(r: Registry, name: string): (p: Option<Provider>)
    ensures p.Some? <==> name in r
  {
    if name in r then Some(r[name]) else None
  }

  /**
   * A registered provider is what `get` returns for its name afterwards,
   * whatever was there before; every other name reads as before, and the
   * registry stays valid.
   */
  lemma RegisterThenGet(r: Registry, p: Provider, other: string)
    requires Valid(r)
    ensures Valid(Register(r, p))
    ensures Get(Register(r, p), p.name) == Some(p)
    ensures other != p.name ==> Get(Register(r, p), other) == Get(r, other)
    ensures Register(r, p).Keys == r.Keys + {p.name}
  {
  }

  /** `get_all()`, the values visited in `order`. */
  function GetAll(r: Registry, order: seq<string>): (ps: seq<Provider>)
    requires forall i :: 0 <= i < |order| ==> order[i] in r
    ensures |ps| == |order|
  {
    seq(|order|, i requires 0 <= i < |order| => r[order[i]])
  }

  /** The enabled providers of a list, in order. */
  function Enabled(ps: seq<Provider>): seq<Provider>
    decreases |ps|
  {
    if |ps| == 0 then []
    else Enabled(ps[..|ps| - 1]) + (if ps[|ps| - 1].enabled then [ps[|ps| - 1]] else [])
  }

  lemma {:induction false} EnabledMembers(ps: seq<Provider>)
    ensures forall p :: p in Enabled(ps) <==> p in ps && p.enabled
    ensures |Enabled(ps)| <= |ps|
    decreases |ps|
  {
    if ps != [] {
      EnabledMembers(ps[..|ps| - 1]);
      assert forall p :: p in ps <==> p in ps[..|ps| - 1] || p == ps[|ps| - 1];
    }
  }

  /** `get_enabled()`, the values visited in `order`. */
  function GetEnabled(r: Registry, order: seq<string>): seq<Provider>
    requires forall i :: 0 <= i < |order| ==> order[i] in r
  {
    Enabled(GetAll(r, order))
  }

  /** `is_enabled(name)`: false for an unknown name. */
  function IsEnabled(r: Registry, name: string): bool {
    Get(r, name).Some? && Get(r, name).value.enabled
  }

  /**
   * The enabled providers are exactly the stored ones whose flag is set,
   * which is what `is_enabled` reports for their names.
   */
  lemma GetEnabledIff(r: Registry, order: seq<string>)
    requires Valid(r) && (forall i :: 0 <= i < |order| ==> order[i] in r) && (set n | n in order) == r.Keys
    ensures forall p :: p in GetEnabled(r, order) <==> p.name in r && r[p.name] == p && p.enabled
    ensures forall p :: p in GetEnabled(r, order) ==> IsEnabled(r, p.name)
    ensures forall n :: n in r ==> (IsEnabled(r, n) <==> r[n] in GetEnabled(r, order))
  {
    EnabledMembers(GetAll(r, order));
    forall n | n in r ensures r[n] in GetAll(r, order) {
      assert n in (set n | n in order);
      var i :| 0 <= i < |order| && order[i] == n;
      assert GetAll(r, order)[i] == r[n];
    }
  }

  /** The flag change `enable` and `disable` make. */
  function SetEnabled(r: Registry, name: string, flag: bool): (Registry, Result<(), E.UntraceError>) {
    if name in r then (r[name := r[name].(enabled := flag)], Ok(()))
    else (r, Err(E.Instrumentation("Provider '" + name + "' not found")))
  }

  /** `enable(name)`. */
  function Enable(r: Registry, name: string): (Registry, Result<(), E.UntraceError>) {
    SetEnabled(r, name, true)
  }

  /** `disable(name)`. */
  function Disable(r: Registry, name: string): (Registry, Result<(), E.UntraceError>) {
    SetEnabled(r, name, false)
  }

  /**
   * Enabling or disabling an unknown name is an instrumentation error that
   * changes nothing. On a known name it succeeds, `is_enabled` then reports
   * the new flag, and every other provider, and every other field of this
   * one, stays as it was.
   */
  lemma EnableDisableProperties(r: Registry, name: string, flag: bool)
    requires Valid(r)
    ensures var (r', res) := if flag then Enable(r, name) else Disable(r, name);
            && Valid(r')
            && (name !in r ==> r' == r && res.Err? && res.error == E.Instrumentation("Provider '" + name + "' not found"))
            && (name in r ==>
                  && res.Ok? && r'.Keys == r.Keys && IsEnabled(r', name) == flag
                  && r'[name].(enabled := r[name].enabled) == r[name]
                  && forall n :: n in r && n != name ==> r'[n] == r[n])
  {
  }

  /** Enabling twice is enabling once, and disabling after enabling leaves the flag off. */
  lemma EnableIdempotent(r: Registry, name: string)
    ensures Enable(Enable(r, name).0, name) == Enable(r, name)
    ensures !IsEnabled(Disable(Enable(r, name).0, name).0, name)
  {
    if name in r {
      var r1 := Enable(r, name).0;
      assert r1[name := r1[name].(enabled := true)] == r1;
    }
  }

  /** The names of the default providers. */
  const DefaultNames: seq<string> := ["openai", "anthropic", "google", "microsoft", "aws", "cohere"]

  /** `get_default_providers()`. */
  function GetDefaultProviders(): (ps: seq<Provider>)
    ensures |ps| == |DefaultNames|
    ensures forall i :: 0 <= i < |ps| ==> ps[i] == Provider(DefaultNames[i], "1.0.0", true)
  {
    seq(|DefaultNames|, i requires 0 <= i < |DefaultNames| => Provider(DefaultNames[i], "1.0.0", true))
  }

  /** `register` applied to each provider in turn. */
  function RegisterAll(r: Registry, ps: seq<Provider>): Registry
    decreases |ps|
  {
    if |ps| == 0 then r else Register(RegisterAll(r, ps[..|ps| - 1]), ps[|ps| - 1])
  }

  /**
   * Registering providers with distinct names stores each under its name
   * and leaves every other name as it was.
   */
  lemma {:induction false} RegisterAllProperties(r: Registry, ps: seq<Provider>)
    requires Valid(r)
    requires forall i, j :: 0 <= i < j < |ps| ==> ps[i].name != ps[j].name
    ensures Valid(RegisterAll(r, ps))
    ensures forall i :: 0 <= i < |ps| ==> Get(RegisterAll(r, ps), ps[i].name) == Some(ps[i])
    ensures forall n :: (forall i :: 0 <= i < |ps| ==> ps[i].name != n) ==> Get(RegisterAll(r, ps), n) == Get(r, n)
    decreases |ps|
  {
    if ps != [] {
      RegisterAllProperties(r, ps[..|ps| - 1]);
    }
  }

  /** `register_default_providers(registry)`. */
  function RegisterDefaultProviders(r: Registry): Registry {
    RegisterAll(r, GetDefaultProviders())
  }

  /**
   * After registering the defaults, each of the six names holds an enabled
   * provider of version 1.0.0 and every other name is untouched.
   */
  lemma RegisterDefaultProvidersProperties(r: Registry)
    requires Valid(r)
    ensures var r' := RegisterDefaultProviders(r);
            && Valid(r')
            && (forall n :: n in DefaultNames ==> Get(r', n) == Some(Provider(n, "1.0.0", true)) && IsEnabled(r', n))
            && (forall n :: n !in DefaultNames ==> Get(r', n) == Get(r, n))
  {
    var ps := GetDefaultProviders();
    assert forall i, j :: 0 <= i < j < |ps| ==> ps[i].name != ps[j].name;
    RegisterAllProperties(r, ps);
    forall n | n in DefaultNames ensures Get(RegisterDefaultProviders(r), n) == Some(Provider(n, "1.0.0", true)) {
      var i :| 0 <= i < |DefaultNames| && DefaultNames[i] == n;
      assert ps[i].name == n;
    }
    forall n | n !in DefaultNames ensures forall i :: 0 <= i < |ps| ==> ps[i].name != n {
    }
  }
}
