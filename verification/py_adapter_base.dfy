/**
 * What every Python provider adapter inherits from
 * `BaseProviderInstrumentation`: the instrumented flag, the table of saved
 * originals, the span wrapper around one API call, the keyword-argument
 * extractors, and the request, response and usage attribute helpers.
 *
 * Monkey-patching is modelled as an explicit table: `Slots` maps an
 * object's `id()` and an attribute name to the callable found there, and
 * a library's classes map to the constructor currently installed.
 */
module PyAdapterBase {
  import opened Wrappers
  import opened PyValues
  import opened Spans
  import opened PyTypes
  import OrderedDict
  import Digits
  import PyAttributes
  import PyTracer

  // ---------------------------------------------------------------------------
  // Callables, saved originals and the instrumented flag
  // ---------------------------------------------------------------------------

  /** A callable: the library's own, or a wrapper an adapter built around another callable. */
  datatype Callable = Original(name: string) | Wrapped(wrapper: string, inner: Callable)

  /**
   * The adapter's own state: its provider name, the instrumented flag, the
   * methods `_patch_method` saved (keyed "id.method"), and the constructors
   * a subclass saved before patching them (keyed by class name).
   */
  datatype Adapter = Adapter(providerName: string, instrumented: bool,
                             originalMethods: map<string, Callable>, constructors: map<string, Callable>)

  /** A new adapter is not instrumented and has saved nothing. */
  function NewAdapter(providerName: string): (a: Adapter)
    ensures a.providerName == providerName && !a.instrumented
    ensures a.originalMethods == map[] && a.constructors == map[]
  {
    Adapter(providerName, false, map[], map[])
  }

  function MarkInstrumented(a: Adapter): (r: Adapter)
    ensures r.instrumented && r == a.(instrumented := true)
  {
    a.(instrumented := true)
  }

  function MarkUninstrumented(a: Adapter): (r: Adapter)
    ensures !r.instrumented && r == a.(instrumented := false)
  {
    a.(instrumented := false)
  }

  // ---------------------------------------------------------------------------
  // `_patch_method`
  // ---------------------------------------------------------------------------

  /** Attribute slots of live objects: (`id(obj)`, attribute name) to the callable stored there. */
  type Slots = map<(nat, string), Callable>

  /** The key `_patch_method` saves an original under: f"{id(obj)}.{method_name}". */
  function SlotKey(obj: nat, attr: string): string {
    Digits.Decimal(obj) + "." + attr
  }

  /**
   * `_patch_method(obj, method_name, wrapper_factory)`: when the attribute
   * exists, save what is there and install the factory's wrapper around it;
   * otherwise do nothing. `wrapper` names the factory.
   */
  function PatchMethod(a: Adapter, slots: Slots, obj: nat, attr: string, wrapper: string): (Adapter, Slots) {
    if (obj, attr) in slots then
      var original := slots[(obj, attr)];
      (a.(originalMethods := a.originalMethods[SlotKey(obj, attr) := original]),
       slots[(obj, attr) := Wrapped(wrapper, original)])
    else (a, slots)
  }

  /** Two different slots are never saved under the same key. */
  lemma SlotKeyInjective(o1: nat, m1: string, o2: nat, m2: string)
    requires SlotKey(o1, m1) == SlotKey(o2, m2)
    ensures o1 == o2 && m1 == m2
  {
    var d1, d2 := Digits.Decimal(o1), Digits.Decimal(o2);
    var key := SlotKey(o1, m1);
    Digits.DecimalRoundTrip(o1);
    Digits.DecimalRoundTrip(o2);
    assert key == d1 + "." + m1 == d2 + "." + m2;
    assert Digits.DigitValue('.') == 16;
    assert '.' !in d1 && '.' !in d2;
    assert key[|d1|] == '.' && key[|d2|] == '.';
    assert forall i :: 0 <= i < |d1| ==> key[i] == d1[i];
    assert forall i :: 0 <= i < |d2| ==> key[i] == d2[i];
    assert |d1| == |d2|;
    assert d1 == key[..|d1|] == d2;
    assert m1 == key[|d1| + 1..] == m2;
  }

  /**
   * Patching an absent attribute changes nothing. Patching a present one
   * saves exactly the callable that was there under its key, installs this
   * adapter's wrapper around it, and touches no other slot or saved entry;
   * so patching the same slot twice saves the first wrapper, not the
   * library's original.
   */
  lemma PatchMethodProperties(a: Adapter, slots: Slots, obj: nat, attr: string, wrapper: string)
    ensures (obj, attr) !in slots ==> PatchMethod(a, slots, obj, attr, wrapper) == (a, slots)
    ensures (obj, attr) in slots ==>
              var (a', slots') := PatchMethod(a, slots, obj, attr, wrapper);
              var original := slots[(obj, attr)];
              && a'.originalMethods[SlotKey(obj, attr)] == original
              && slots'[(obj, attr)] == Wrapped(wrapper, original)
              && (forall s :: s in slots && s != (obj, attr) ==> s in slots' && slots'[s] == slots[s])
              && slots'.Keys == slots.Keys
              && (forall k :: k in a.originalMethods && k != SlotKey(obj, attr) ==>
                    k in a'.originalMethods && a'.originalMethods[k] == a.originalMethods[k])
              && a' == a.(originalMethods := a'.originalMethods)
    ensures (obj, attr) in slots ==>
              var (a', slots') := PatchMethod(a, slots, obj, attr, wrapper);
              var (a'', slots'') := PatchMethod(a', slots', obj, attr, wrapper);
              && a''.originalMethods[SlotKey(obj, attr)] == Wrapped(wrapper, slots[(obj, attr)])
              && slots''[(obj, attr)] == Wrapped(wrapper, Wrapped(wrapper, slots[(obj, attr)]))
  {
  }

  // ---------------------------------------------------------------------------
  // Patching a library's constructors: the subclasses' `instrument` and
  // `uninstrument`
  // ---------------------------------------------------------------------------

  /** A third-party library: not installed, or installed with the constructor each class currently has. */
  datatype Library = NotInstalled | Installed(inits: map<string, Callable>)

  /** `from lib import A, B, ...` succeeds: the library is there and has every class. */
  predicate Importable(lib: Library, classes: seq<string>) {
    lib.Installed? && forall i :: 0 <= i < |classes| ==> classes[i] in lib.inits
  }

  /** Every class the adapter patches has its original saved whenever it is instrumented. */
  predicate Saved(a: Adapter, classes: seq<string>) {
    a.instrumented ==> forall i :: 0 <= i < |classes| ==> classes[i] in a.constructors
  }

  /**
   * `instrument`: a no-op when already instrumented, and when the import
   * fails (the library stays as it is and the adapter uninstrumented).
   * Otherwise each class's constructor is saved, replaced by a wrapper
   * around it, and the adapter is marked instrumented.
   */
  function InstrumentConstructors(a: Adapter, lib: Library, classes: seq<string>): (r: (Adapter, Library))
    ensures Saved(a, classes) ==> Saved(r.0, classes)
  {
    if a.instrumented || !Importable(lib, classes) then (a, lib)
    else
      var saved := map c | c in classes :: lib.inits[c];
      var patched := map c | c in classes :: Wrapped(a.providerName, lib.inits[c]);
      (MarkInstrumented(a.(constructors := a.constructors + saved)), Installed(lib.inits + patched))
  }

  /**
   * `uninstrument`: a no-op when not instrumented. Otherwise each saved
   * constructor is put back when the library can be imported, and the
   * adapter is marked uninstrumented either way.
   */
  function UninstrumentConstructors(a: Adapter, lib: Library, classes: seq<string>): (r: (Adapter, Library))
    requires Saved(a, classes)
    ensures !r.0.instrumented && Saved(r.0, classes)
  {
    if !a.instrumented then (a, lib)
    else if Importable(lib, classes) then
      var restored := map c | c in classes :: a.constructors[c];
      (MarkUninstrumented(a), Installed(lib.inits + restored))
    else (MarkUninstrumented(a), lib)
  }

  /**
   * The constructor lifecycle: instrumenting twice is instrumenting once; a
   * missing library leaves everything as it was; instrumenting a fresh
   * adapter wraps exactly the listed constructors; and uninstrumenting
   * afterwards puts the library back exactly as it was. Uninstrumenting an
   * uninstrumented adapter does nothing.
   */
  lemma ConstructorLifecycle(a: Adapter, lib: Library, classes: seq<string>)
    requires Saved(a, classes)
    ensures var (a1, lib1) := InstrumentConstructors(a, lib, classes);
            InstrumentConstructors(a1, lib1, classes) == (a1, lib1)
    ensures !Importable(lib, classes) ==> InstrumentConstructors(a, lib, classes) == (a, lib)
    ensures !a.instrumented ==> UninstrumentConstructors(a, lib, classes) == (a, lib)
    ensures !a.instrumented && Importable(lib, classes) ==>
              var (a1, lib1) := InstrumentConstructors(a, lib, classes);
              && a1.instrumented
              && lib1.Installed? && lib1.inits.Keys == lib.inits.Keys
              && (forall c :: c in classes ==> lib1.inits[c] == Wrapped(a.providerName, lib.inits[c]))
              && (forall c :: c in lib.inits && c !in classes ==> lib1.inits[c] == lib.inits[c])
              && UninstrumentConstructors(a1, lib1, classes).1 == lib
              && !UninstrumentConstructors(a1, lib1, classes).0.instrumented
  {
    if !a.instrumented && Importable(lib, classes) {
      var (a1, lib1) := InstrumentConstructors(a, lib, classes);
      forall c | c in classes
        ensures c in a1.constructors && a1.constructors[c] == lib.inits[c]
      {
      }
      var back := UninstrumentConstructors(a1, lib1, classes).1;
      assert Importable(lib1, classes);
      assert back.inits == lib.inits;
    }
  }

  // ---------------------------------------------------------------------------
  // Keyword-argument extractors
  // ---------------------------------------------------------------------------

  /** `kwargs.get(name, default)`. */
  function KwargOr(kwargs: Attrs, name: string, default: PyValue): (v: PyValue)
    ensures name in OrderedDict.Keys(kwargs) ==> OrderedDict.Get(kwargs, name) == Some(v)
    ensures name !in OrderedDict.Keys(kwargs) ==> v == default
  {
    OrderedDict.GetDefined(kwargs, name);
    OrderedDict.GetOr(kwargs, name, default)
  }

  function ExtractModel(kwargs: Attrs, default: string := "unknown"): PyValue {
    KwargOr(kwargs, "model", PStr(default))
  }

  function ExtractMessages(kwargs: Attrs): PyValue {
    KwargOr(kwargs, "messages", PList([]))
  }

  function ExtractPrompt(kwargs: Attrs): PyValue {
    KwargOr(kwargs, "prompt", PStr(""))
  }

  function ExtractInput(kwargs: Attrs): PyValue {
    KwargOr(kwargs, "input", PStr(""))
  }

  /** Each extractor gives the caller's value when there is one and its default otherwise. */
  lemma ExtractorDefaults(kwargs: Attrs)
    ensures OrderedDict.Get(kwargs, "model").Some? ==> Some(ExtractModel(kwargs)) == OrderedDict.Get(kwargs, "model")
    ensures OrderedDict.Get(kwargs, "model").None? ==> ExtractModel(kwargs) == PStr("unknown")
    ensures OrderedDict.Get(kwargs, "messages").Some? ==> Some(ExtractMessages(kwargs)) == OrderedDict.Get(kwargs, "messages")
    ensures OrderedDict.Get(kwargs, "messages").None? ==> ExtractMessages(kwargs) == PList([])
    ensures OrderedDict.Get(kwargs, "prompt").Some? ==> Some(ExtractPrompt(kwargs)) == OrderedDict.Get(kwargs, "prompt")
    ensures OrderedDict.Get(kwargs, "prompt").None? ==> ExtractPrompt(kwargs) == PStr("")
    ensures OrderedDict.Get(kwargs, "input").Some? ==> Some(ExtractInput(kwargs)) == OrderedDict.Get(kwargs, "input")
    ensures OrderedDict.Get(kwargs, "input").None? ==> ExtractInput(kwargs) == PStr("")
  {
    OrderedDict.GetDefined(kwargs, "model");
    OrderedDict.GetDefined(kwargs, "messages");
    OrderedDict.GetDefined(kwargs, "prompt");
    OrderedDict.GetDefined(kwargs, "input");
  }

  // ---------------------------------------------------------------------------
  // Guarded attribute writes
  // ---------------------------------------------------------------------------

  /**
   * The attribute writes a wrapper makes, in order: each key with the value
   * it is set to, or `None` when the guarding `hasattr`/`in` check fails
   * and the write is skipped.
   */
  type Writes = seq<(string, Option<PyValue>)>

  /** An attribute copied onto the span when it is there. */
  function SetIfPresent(key: string, v: Option<PyValue>): seq<Action> {
    if v.Some? then [SetAttribute(key, v.value)] else []
  }

  /** The span actions the writes perform. */
  function Sets(ws: Writes): seq<Action> {
    if |ws| == 0 then []
    else Sets(ws[..|ws| - 1]) + SetIfPresent(ws[|ws| - 1].0, ws[|ws| - 1].1)
  }

  /** The value the last performed write to `k` leaves, if any. */
  function LastValue(ws: Writes, k: string): Option<PyValue> {
    if |ws| == 0 then None
    else if ws[|ws| - 1].0 == k && ws[|ws| - 1].1.Some? then ws[|ws| - 1].1
    else LastValue(ws[..|ws| - 1], k)
  }

  /**
   * Performing the writes leaves each key holding the value of the last
   * write to it that was performed, and adds no event, status or end.
   */
  lemma {:induction false} SetsProperties(ws: Writes)
    ensures forall k :: OrderedDict.Get(Assignments(Sets(ws)), k) == LastValue(ws, k)
    ensures Events(Sets(ws)) == [] && CountEnds(Sets(ws)) == 0 && LastStatus(Sets(ws)) == None
    decreases |ws|
  {
    if ws != [] {
      var init, last := ws[..|ws| - 1], ws[|ws| - 1];
      var step := SetIfPresent(last.0, last.1);
      SetsProperties(init);
      AssignmentsConcat(Sets(init), step);
      EventsConcat(Sets(init), step);
      CountEndsAppend(Sets(init), step);
      LastStatusAppend(Sets(init), step);
      if last.1.Some? {
        assert step[..0] == [];
      }
      forall k
        ensures OrderedDict.Get(Assignments(Sets(ws)), k) == LastValue(ws, k)
      {
        OrderedDict.GetConcat(Assignments(Sets(init)), Assignments(step), k);
      }
    }
  }

  /** Writes whose guards all failed perform nothing. */
  lemma {:induction false} SetsSkipped(ws: Writes)
    requires forall i :: 0 <= i < |ws| ==> ws[i].1.None?
    ensures Sets(ws) == []
    decreases |ws|
  {
    if ws != [] {
      SetsSkipped(ws[..|ws| - 1]);
    }
  }

  lemma {:induction false} LastStatusAppend(a: seq<Action>, b: seq<Action>)
    ensures LastStatus(a + b) == if LastStatus(b).Some? then LastStatus(b) else LastStatus(a)
    decreases |b|
  {
    if b == [] {
      assert a + b == a;
    } else {
      assert (a + b)[..|a + b| - 1] == a + b[..|b| - 1];
      LastStatusAppend(a, b[..|b| - 1]);
    }
  }

  /** Writes done in two runs: the second run's last value for a key wins. */
  lemma {:induction false} LastValueConcat(a: Writes, b: Writes, k: string)
    ensures LastValue(a + b, k) == if LastValue(b, k).Some? then LastValue(b, k) else LastValue(a, k)
    decreases |b|
  {
    if b == [] {
      assert a + b == a;
    } else {
      assert (a + b)[..|a + b| - 1] == a + b[..|b| - 1];
      LastValueConcat(a, b[..|b| - 1], k);
    }
  }

  lemma {:induction false} SetsConcat(a: Writes, b: Writes)
    ensures Sets(a + b) == Sets(a) + Sets(b)
    decreases |b|
  {
    if b == [] {
      assert a + b == a;
    } else {
      assert (a + b)[..|a + b| - 1] == a + b[..|b| - 1];
      SetsConcat(a, b[..|b| - 1]);
    }
  }

  /** A key no write names keeps no value. */
  lemma {:induction false} LastValueUnwritten(ws: Writes, k: string)
    requires forall i :: 0 <= i < |ws| ==> ws[i].0 != k
    ensures LastValue(ws, k) == None
    decreases |ws|
  {
    if ws != [] {
      LastValueUnwritten(ws[..|ws| - 1], k);
    }
  }

  /** A key written once holds that write's value, or nothing when that write was skipped. */
  lemma {:induction false} LastValueOnce(ws: Writes, i: nat)
    requires i < |ws|
    requires forall j :: 0 <= j < |ws| && j != i ==> ws[j].0 != ws[i].0
    ensures LastValue(ws, ws[i].0) == ws[i].1
    decreases |ws|
  {
    if i < |ws| - 1 {
      LastValueOnce(ws[..|ws| - 1], i);
    } else {
      LastValueUnwritten(ws[..|ws| - 1], ws[i].0);
    }
  }

  // ---------------------------------------------------------------------------
  // Request and response attributes
  // ---------------------------------------------------------------------------

  /**
   * `_set_request_attributes(span, model, **kwargs)` with the keyword
   * arguments the call site passes in: the call's own `kwargs`. Python
   * binds `model` twice when those contain "model" and raises `TypeError`
   * before setting anything.
   */
  function SetRequestAttributesAsWritten(model: PyValue, kwargs: Attrs): (r: Result<Writes, PyException>)
    ensures r.Err? <==> "model" in OrderedDict.Keys(kwargs)
  {
    if "model" in OrderedDict.Keys(kwargs) then
      Err(PyException("TypeError", "_set_request_attributes() got multiple values for argument 'model'"))
    else Ok(RequestWrites(model, kwargs))
  }

  /**
   * The helper as its call sites mean it: the request model, then
   * temperature, max_tokens and stream each when the caller passed it.
   */
  function RequestWrites(model: PyValue, kwargs: Attrs): Writes {
    [("llm.request.model", Some(model)),
     ("llm.request.temperature", OrderedDict.Get(kwargs, "temperature")),
     ("llm.request.max_tokens", OrderedDict.Get(kwargs, "max_tokens")),
     ("llm.request.stream", OrderedDict.Get(kwargs, "stream"))]
  }

  /** The optional request parameters copied onto the span, with their attribute keys. */
  const RequestParams: seq<(string, string)> :=
    [("temperature", "llm.request.temperature"), ("max_tokens", "llm.request.max_tokens"),
     ("stream", "llm.request.stream")]

  /**
   * The corrected helper always sets the request model and sets each of
   * temperature, max_tokens and stream exactly when the caller passed it,
   * to the caller's value; it sets nothing else and adds no event.
   */
  lemma SetRequestAttributesProperties(model: PyValue, kwargs: Attrs)
    ensures var sets := Assignments(Sets(RequestWrites(model, kwargs)));
            && OrderedDict.Get(sets, "llm.request.model") == Some(model)
            && (forall i :: 0 <= i < |RequestParams| ==>
                  OrderedDict.Get(sets, RequestParams[i].1) == OrderedDict.Get(kwargs, RequestParams[i].0))
            && (forall k :: k != "llm.request.model" && k !in ParamKeys(RequestParams) ==> OrderedDict.Get(sets, k) == None)
    ensures Events(Sets(RequestWrites(model, kwargs))) == []
  {
    var ws := RequestWrites(model, kwargs);
    SetsProperties(ws);
    assert ParamKeys(RequestParams) == ["llm.request.temperature", "llm.request.max_tokens", "llm.request.stream"];
    forall k | k != "llm.request.model" && k !in ParamKeys(RequestParams)
      ensures LastValue(ws, k) == None
    {
      LastValueUnwritten(ws, k);
    }
    LastValueOnce(ws, 0);
    LastValueOnce(ws, 1);
    LastValueOnce(ws, 2);
    LastValueOnce(ws, 3);
  }

  function ParamKeys(ps: seq<(string, string)>): (ks: seq<string>)
    ensures |ks| == |ps| && forall i :: 0 <= i < |ps| ==> ks[i] == ps[i].1
  {
    seq(|ps|, i requires 0 <= i < |ps| => ps[i].1)
  }

  /**
   * The defect, exhibited: a call made with `model=` fails in the helper as
   * written; without `model` among the keyword arguments the helper
   * behaves as intended.
   */
  lemma SetRequestAttributesAsWrittenDefect()
    ensures SetRequestAttributesAsWritten(PStr("gpt-4"), [("model", PStr("gpt-4"))]).Err?
    ensures forall model, kwargs :: "model" !in OrderedDict.Keys(kwargs) ==>
              SetRequestAttributesAsWritten(model, kwargs) == Ok(RequestWrites(model, kwargs))
  {
    assert OrderedDict.Keys([("model", PStr("gpt-4"))]) == ["model"];
  }

  /** `_set_response_attributes`: the response's model and id, each when the response has it. */
  function ResponseWrites(model: Option<PyValue>, id: Option<PyValue>): Writes {
    [("llm.response.model", model), ("llm.response.id", id)]
  }

  // ---------------------------------------------------------------------------
  // Usage
  // ---------------------------------------------------------------------------

  /**
   * A usage object, under the names the provider uses for them: each token
   * count that `hasattr` finds.
   */
  datatype Usage = Usage(promptTokens: Option<int>, completionTokens: Option<int>, totalTokens: Option<int>)

  function AsInt(n: Option<int>): Option<PyValue> {
    if n.Some? then Some(PInt(n.value)) else None
  }

  /** The token attributes a usage object sets: each count it has, under its fixed key. */
  function UsageWrites(u: Usage): Writes {
    [("llm.prompt.tokens", AsInt(u.promptTokens)), ("llm.completion.tokens", AsInt(u.completionTokens)),
     ("llm.total.tokens", AsInt(u.totalTokens))]
  }

  /** The token usage recorded: `getattr(usage, name, 0)` for each count. */
  function UsageRecord(provider: string, model: PyValue, u: Usage): TokenUsage {
    TokenUsage(model, provider, Some(u.promptTokens.GetOr(0)), Some(u.completionTokens.GetOr(0)),
               Some(u.totalTokens.GetOr(0)))
  }

  /**
   * `_handle_usage_metrics`: without a (truthy) usage object nothing
   * happens; with one, its counts go onto the span and one token usage is
   * recorded. `usage` is `None` both when the response has no usage and
   * when it is falsy.
   */
  function HandleUsage(provider: string, model: PyValue, usage: Option<Usage>): (Writes, seq<TokenUsage>) {
    if usage.None? then ([], [])
    else (UsageWrites(usage.value), [UsageRecord(provider, model, usage.value)])
  }

  const TokenKeys: seq<string> := ["llm.prompt.tokens", "llm.completion.tokens", "llm.total.tokens"]

  /**
   * Without usage nothing is set or recorded. With usage, each token key is
   * set exactly when its count is there, to that count, no other key is
   * set, and exactly one record is made whose missing counts are 0.
   */
  lemma HandleUsageProperties(provider: string, model: PyValue, usage: Option<Usage>)
    ensures usage.None? ==> HandleUsage(provider, model, usage) == ([], [])
    ensures usage.Some? ==>
              var (ws, records) := HandleUsage(provider, model, usage);
              var u := usage.value;
              && LastValue(ws, "llm.prompt.tokens") == AsInt(u.promptTokens)
              && LastValue(ws, "llm.completion.tokens") == AsInt(u.completionTokens)
              && LastValue(ws, "llm.total.tokens") == AsInt(u.totalTokens)
              && (forall k :: k !in TokenKeys ==> LastValue(ws, k) == None)
              && |records| == 1
              && records[0].provider == provider && records[0].model == model
              && records[0].promptTokens == Some(u.promptTokens.GetOr(0))
              && records[0].completionTokens == Some(u.completionTokens.GetOr(0))
              && records[0].totalTokens == Some(u.totalTokens.GetOr(0))
  {
    if usage.Some? {
      var ws := UsageWrites(usage.value);
      forall k | k !in TokenKeys
        ensures LastValue(ws, k) == None
      {
        LastValueUnwritten(ws, k);
      }
      LastValueOnce(ws, 0);
      LastValueOnce(ws, 1);
      LastValueOnce(ws, 2);
    }
  }

  /** `_handle_error_metrics`: the error, tagged with the operation and this provider. */
  function HandleErrorMetrics(provider: string, error: PyException, operation: string): (r: (PyException, Attrs))
    ensures r.0 == error
    ensures OrderedDict.Keys(r.1) == ["operation", "provider"]
    ensures OrderedDict.Get(r.1, "operation") == Some(PStr(operation))
    ensures OrderedDict.Get(r.1, "provider") == Some(PStr(provider))
  {
    var tags := [("operation", PStr(operation)), ("provider", PStr(provider))];
    assert tags[..1] == [("operation", PStr(operation))];
    (error, tags)
  }

  // ---------------------------------------------------------------------------
  // Attributes and the span around one call
  // ---------------------------------------------------------------------------

  /** `_create_llm_attributes(model, operation_type, **kwargs)`: this provider's name as `provider`. */
  function CreateAdapterAttributes(provider: string, model: PyValue, operation: string, extras: Attrs): Result<Attrs, PyException> {
    PyAttributes.CreateLlmAttributes(PStr(provider), model, PStr(operation), extras)
  }

  /** No extra argument is named like one of the three required ones. */
  predicate NoRequiredNames(extras: Attrs) {
    forall i :: 0 <= i < |extras| ==> extras[i].0 !in ["provider", "model", "operation_type"]
  }

  /**
   * With extras that do not rebind a required name, the bag is built and
   * stamps the adapter's provider name, the model and the operation, each
   * unless an extra argument of the same attribute key overrides it.
   */
  lemma CreateAdapterAttributesProperties(provider: string, model: PyValue, operation: string, extras: Attrs)
    requires NoRequiredNames(extras) && OrderedDict.UniqueKeys(extras)
    ensures CreateAdapterAttributes(provider, model, operation, extras).Ok?
    ensures var bag := CreateAdapterAttributes(provider, model, operation, extras).value;
            var ek := OrderedDict.Keys(extras);
            && ("llm.provider" !in ek ==> OrderedDict.Get(bag, "llm.provider") == Some(PStr(provider)))
            && ("llm.model" !in ek ==> OrderedDict.Get(bag, "llm.model") == Some(model))
            && ("llm.operation.type" !in ek ==> OrderedDict.Get(bag, "llm.operation.type") == Some(PStr(operation)))
  {
    LlmRequiredNames();
    SchemasWellFormed();
    var required := [PStr(provider), model, PStr(operation)];
    assert !PyAttributes.Clashes(LlmSchema, extras) by {
      forall i | 0 <= i < |LlmSchema.required|
        ensures LlmSchema.required[i].name !in OrderedDict.Keys(extras)
      {
      }
    }
    PyAttributes.CreateBagProperties(LlmSchema, required, extras);
  }

  lemma LlmRequiredNames()
    ensures |LlmSchema.required| == 3
    ensures LlmSchema.required[0] == Param("provider", "llm.provider")
    ensures LlmSchema.required[1] == Param("model", "llm.model")
    ensures LlmSchema.required[2] == Param("operation_type", "llm.operation.type")
  {
    var all := LlmSchema.required + LlmSchema.optional;
    assert Names(all) == LlmNames && AttrKeys(all) == LlmKeys;
    assert all[0] == LlmSchema.required[0];
    assert all[1] == LlmSchema.required[1];
    assert all[2] == LlmSchema.required[2];
  }

  /**
   * `_create_llm_span_sync(span_name, attributes, traced_call)`: the client
   * span around the traced call, which does `fnLog` to the span and ends
   * with `fnOutcome`. The async variant hands the same arguments to
   * `with_llm_span` and behaves the same.
   */
  function CreateLlmSpanSync<R>(spanName: string, bag: Attrs, current: Parent, fnLog: seq<Action>, fnOutcome: Outcome<R>): Traced<R> {
    PyTracer.WithLlmSpan(spanName, PyTracer.LlmBag(bag), current, fnLog, fnOutcome)
  }

  /**
   * The span is a client span with the bag's attributes; the traced call's
   * result or exception passes through; the span ends exactly once, last;
   * its final status is OK exactly when the call returned, and ERROR with
   * the exception's message, after recording it, when it raised.
   */
  lemma CreateLlmSpanSyncProperties<R>(spanName: string, bag: Attrs, current: Parent, fnLog: seq<Action>, fnOutcome: Outcome<R>)
    ensures var t := CreateLlmSpanSync(spanName, bag, current, fnLog, fnOutcome);
            && t.span.name == spanName && t.span.kind == Client && t.span.attributes == bag
            && t.outcome == fnOutcome
            && |t.log| > |fnLog| && t.log[..|fnLog|] == fnLog
            && t.log[|t.log| - 1] == End
            && CountEnds(t.log) == CountEnds(fnLog) + 1
            && (LastStatus(t.log) == Some((StatusOk, None)) <==> fnOutcome.Returned?)
            && (fnOutcome.Raised? ==>
                  RecordException(fnOutcome.error) in t.log[|fnLog|..]
                  && LastStatus(t.log) == Some((StatusError, Some(fnOutcome.error.message))))
            && Assignments(t.log) == Assignments(fnLog) && Events(t.log) == Events(fnLog)
  {
    var options := MakeSpanOptions(spanName, Some(Client), Some(PyTracer.AttributesOf(PyTracer.LlmBag(bag))), None);
    PyTracer.WithSpanProperties(options, current, fnLog, fnOutcome);
    PyTracer.WithSpanKeepsWrites(options, current, fnLog, fnOutcome);
  }

  /** What one instrumented API call produced: its span, and the token usage it recorded. */
  datatype Call<+R> = Call(traced: Traced<R>, usage: seq<TokenUsage>)

  /**
   * The body every wrapper's `traced_call` shares: the request writes, the
   * "llm.request.start" event, the original call, and, when it returns,
   * the "llm.response.received" event and the response writes. An
   * exception from the original call skips everything after it.
   */
  function CallLog<R>(request: Writes, original: Outcome<R>, response: Writes): seq<Action> {
    Sets(request) + [AddEvent("llm.request.start")]
      + (if original.Returned? then [AddEvent("llm.response.received")] + Sets(response) else [])
  }

  /** The writes that take effect: the request's, then the response's after a return. */
  function Effective<R>(request: Writes, original: Outcome<R>, response: Writes): Writes {
    request + (if original.Returned? then response else [])
  }

  /**
   * The request writes come first, then the start event; the received
   * event appears exactly when the call returned; nothing is ended; and
   * each attribute holds the last effective write's value.
   */
  lemma CallLogProperties<R>(request: Writes, original: Outcome<R>, response: Writes)
    ensures var log := CallLog(request, original, response);
            && |log| > |Sets(request)| && log[..|Sets(request)|] == Sets(request)
            && log[|Sets(request)|] == AddEvent("llm.request.start")
            && Events(log) == (if original.Returned? then ["llm.request.start", "llm.response.received"]
                               else ["llm.request.start"])
            && CountEnds(log) == 0
    ensures forall k :: OrderedDict.Get(Assignments(CallLog(request, original, response)), k) ==
                          LastValue(Effective(request, original, response), k)
  {
    CallLogShape(request, original, response);
    CallLogAssignments(request, original, response);
  }

  /** The order of the log's pieces: the request writes, the start event, then the rest. */
  lemma CallLogShape<R>(request: Writes, original: Outcome<R>, response: Writes)
    ensures var log := CallLog(request, original, response);
            && |log| > |Sets(request)| && log[..|Sets(request)|] == Sets(request)
            && log[|Sets(request)|] == AddEvent("llm.request.start")
            && Events(log) == (if original.Returned? then ["llm.request.start", "llm.response.received"]
                               else ["llm.request.start"])
            && CountEnds(log) == 0
            && Assignments(log) == Assignments(Sets(request)) + Assignments(Sets(if original.Returned? then response else []))
  {
    CallLogPrefix(request, original, response);
    CallLogEvents(request, original, response);
    CallLogAssigned(request, original, response);
  }

  /** The log starts with the request writes and then the start event. */
  lemma CallLogPrefix<R>(request: Writes, original: Outcome<R>, response: Writes)
    ensures var log := CallLog(request, original, response);
            && |log| > |Sets(request)| && log[..|Sets(request)|] == Sets(request)
            && log[|Sets(request)|] == AddEvent("llm.request.start")
  {
    var tail := if original.Returned? then [AddEvent("llm.response.received")] + Sets(response) else [];
    var start := [AddEvent("llm.request.start")];
    assert CallLog(request, original, response) == Sets(request) + start + tail;
    assert (Sets(request) + start + tail)[..|Sets(request)|] == Sets(request);
  }

  /** The log's events are the start event and, after a return, the received event; nothing ends it. */
  lemma CallLogEvents<R>(request: Writes, original: Outcome<R>, response: Writes)
    ensures var log := CallLog(request, original, response);
            && Events(log) == (if original.Returned? then ["llm.request.start", "llm.response.received"]
                               else ["llm.request.start"])
            && CountEnds(log) == 0
  {
    var tail := if original.Returned? then [AddEvent("llm.response.received")] + Sets(response) else [];
    var start := [AddEvent("llm.request.start")];
    var log := CallLog(request, original, response);
    assert log == Sets(request) + start + tail;
    SetsProperties(request);
    TailProperties(original.Returned?, response);
    QuietStep(Sets(request), start, tail);
    assert Events(log) == ["llm.request.start"] + Events(tail);
    EventsOfTail(original.Returned?, Events(tail));
  }

  /** The start event followed by the tail's events, written out. */
  lemma EventsOfTail(returned: bool, rest: seq<string>)
    requires rest == (if returned then ["llm.response.received"] else [])
    ensures ["llm.request.start"] + rest ==
            (if returned then ["llm.request.start", "llm.response.received"] else ["llm.request.start"])
  {
  }

  /** The log assigns the request writes and then, after a return, the response writes. */
  lemma CallLogAssigned<R>(request: Writes, original: Outcome<R>, response: Writes)
    ensures Assignments(CallLog(request, original, response)) ==
            Assignments(Sets(request)) + Assignments(Sets(if original.Returned? then response else []))
  {
    var tail := if original.Returned? then [AddEvent("llm.response.received")] + Sets(response) else [];
    var start := [AddEvent("llm.request.start")];
    assert CallLog(request, original, response) == Sets(request) + start + tail;
    SetsProperties(request);
    TailProperties(original.Returned?, response);
    QuietStep(Sets(request), start, tail);
  }

  /** Each attribute the log assigns holds the last effective write's value. */
  lemma CallLogAssignments<R>(request: Writes, original: Outcome<R>, response: Writes)
    ensures forall k :: OrderedDict.Get(Assignments(CallLog(request, original, response)), k) ==
                          LastValue(Effective(request, original, response), k)
  {
    var later := if original.Returned? then response else [];
    CallLogShape(request, original, response);
    SetsProperties(request);
    SetsProperties(later);
    var whole := Assignments(CallLog(request, original, response));
    assert whole == Assignments(Sets(request)) + Assignments(Sets(later));
    assert Effective(request, original, response) == request + later;
    forall k
      ensures OrderedDict.Get(whole, k) == LastValue(request + later, k)
    {
      LastValueConcat(request, later, k);
      OrderedDict.GetConcat(Assignments(Sets(request)), Assignments(Sets(later)), k);
    }
  }

  /** What follows the start event: the received event and the response writes, after a return only. */
  lemma TailProperties(returned: bool, response: Writes)
    ensures var tail := if returned then [AddEvent("llm.response.received")] + Sets(response) else [];
            && Events(tail) == (if returned then ["llm.response.received"] else [])
            && CountEnds(tail) == 0
            && Assignments(tail) == Assignments(Sets(if returned then response else []))
  {
    SetsProperties(response);
    if returned {
      var received := [AddEvent("llm.response.received")];
      assert received[..0] == [];
      EventsConcat(received, Sets(response));
      CountEndsAppend(received, Sets(response));
      AssignmentsConcat(received, Sets(response));
    }
  }

  /** The request writes, the start event and the rest of the log. */
  lemma QuietStep(req: seq<Action>, start: seq<Action>, tail: seq<Action>)
    requires start == [AddEvent("llm.request.start")]
    requires Events(req) == [] && CountEnds(req) == 0 && CountEnds(tail) == 0
    ensures Events(req + start + tail) == ["llm.request.start"] + Events(tail)
    ensures CountEnds(req + start + tail) == 0
    ensures Assignments(req + start + tail) == Assignments(req) + Assignments(tail)
    ensures (req + start + tail)[|req|] == AddEvent("llm.request.start")
  {
    assert start[..0] == [];
    EventsConcat(req, start);
    EventsConcat(req + start, tail);
    CountEndsAppend(req, start);
    CountEndsAppend(req + start, tail);
    AssignmentsConcat(req, start);
    AssignmentsConcat(req + start, tail);
  }

  /** The span around one wrapped API call, and the usage it recorded, which only a return records. */
  function TracedCall<R>(spanName: string, bag: Attrs, current: Parent, request: Writes,
                         original: Outcome<R>, response: Writes, usage: seq<TokenUsage>): Call<R> {
    Call(CreateLlmSpanSync(spanName, bag, current, CallLog(request, original, response), original),
         if original.Returned? then usage else [])
  }

  /**
   * The original call's result or exception passes through unchanged; the
   * start event follows the request writes and the received event comes
   * only after a return; each attribute ends up with the last value the
   * effective writes gave it; usage is recorded only after a return; and
   * the span ends exactly once, last, OK exactly when the call returned.
   */
  lemma TracedCallProperties<R>(spanName: string, bag: Attrs, current: Parent, request: Writes,
                                original: Outcome<R>, response: Writes, usage: seq<TokenUsage>)
    ensures var c := TracedCall(spanName, bag, current, request, original, response, usage);
            && c.traced.outcome == original
            && c.traced.span.name == spanName && c.traced.span.kind == Client && c.traced.span.attributes == bag
            && c.traced.log[..|Sets(request)|] == Sets(request)
            && c.traced.log[|Sets(request)|] == AddEvent("llm.request.start")
            && Events(c.traced.log) == (if original.Returned? then ["llm.request.start", "llm.response.received"]
                                        else ["llm.request.start"])
            && CountEnds(c.traced.log) == 1 && c.traced.log[|c.traced.log| - 1] == End
            && (LastStatus(c.traced.log) == Some((StatusOk, None)) <==> original.Returned?)
            && c.usage == (if original.Returned? then usage else [])
    ensures var c := TracedCall(spanName, bag, current, request, original, response, usage);
            forall k :: OrderedDict.Get(Assignments(c.traced.log), k) == LastValue(Effective(request, original, response), k)
  {
    TracedCallSpan(spanName, bag, current, request, original, response, usage);
    TracedCallAssignments(spanName, bag, current, request, original, response, usage);
  }

  /** The span part of `TracedCallProperties`: its order of actions, its end and its status. */
  lemma TracedCallSpan<R>(spanName: string, bag: Attrs, current: Parent, request: Writes,
                          original: Outcome<R>, response: Writes, usage: seq<TokenUsage>)
    ensures var c := TracedCall(spanName, bag, current, request, original, response, usage);
            && c.traced.outcome == original
            && c.traced.span.name == spanName && c.traced.span.kind == Client && c.traced.span.attributes == bag
            && c.traced.log[..|Sets(request)|] == Sets(request)
            && c.traced.log[|Sets(request)|] == AddEvent("llm.request.start")
            && Events(c.traced.log) == (if original.Returned? then ["llm.request.start", "llm.response.received"]
                                        else ["llm.request.start"])
            && CountEnds(c.traced.log) == 1 && c.traced.log[|c.traced.log| - 1] == End
            && (LastStatus(c.traced.log) == Some((StatusOk, None)) <==> original.Returned?)
            && c.usage == (if original.Returned? then usage else [])
  {
    var log := CallLog(request, original, response);
    var t := CreateLlmSpanSync(spanName, bag, current, log, original);
    assert TracedCall(spanName, bag, current, request, original, response, usage).traced == t;
    TracedCallOrder(spanName, bag, current, request, original, response);
    TracedCallEnding(spanName, bag, current, request, original, response);
  }

  /** Inside the span, the request writes come first, then the start event; the events are the call log's. */
  lemma TracedCallOrder<R>(spanName: string, bag: Attrs, current: Parent, request: Writes,
                           original: Outcome<R>, response: Writes)
    ensures var t := CreateLlmSpanSync(spanName, bag, current, CallLog(request, original, response), original);
            && |t.log| > |Sets(request)|
            && t.log[..|Sets(request)|] == Sets(request)
            && t.log[|Sets(request)|] == AddEvent("llm.request.start")
            && Events(t.log) == (if original.Returned? then ["llm.request.start", "llm.response.received"]
                                 else ["llm.request.start"])
  {
    var log := CallLog(request, original, response);
    CallLogShape(request, original, response);
    CreateLlmSpanSyncProperties(spanName, bag, current, log, original);
    var t := CreateLlmSpanSync(spanName, bag, current, log, original);
    var n := |Sets(request)|;
    assert t.log[..n] == log[..n];
    assert t.log[n] == log[n];
  }

  /** The span ends exactly once, last, OK exactly when the original call returned. */
  lemma TracedCallEnding<R>(spanName: string, bag: Attrs, current: Parent, request: Writes,
                            original: Outcome<R>, response: Writes)
    ensures var t := CreateLlmSpanSync(spanName, bag, current, CallLog(request, original, response), original);
            && t.outcome == original
            && t.span.name == spanName && t.span.kind == Client && t.span.attributes == bag
            && CountEnds(t.log) == 1 && t.log[|t.log| - 1] == End
            && (LastStatus(t.log) == Some((StatusOk, None)) <==> original.Returned?)
  {
    var log := CallLog(request, original, response);
    assert CountEnds(log) == 0 by {
      CallLogShape(request, original, response);
    }
    CreateLlmSpanSyncProperties(spanName, bag, current, log, original);
  }

  /** The assignment part of `TracedCallProperties`. */
  lemma TracedCallAssignments<R>(spanName: string, bag: Attrs, current: Parent, request: Writes,
                                 original: Outcome<R>, response: Writes, usage: seq<TokenUsage>)
    ensures var c := TracedCall(spanName, bag, current, request, original, response, usage);
            forall k :: OrderedDict.Get(Assignments(c.traced.log), k) == LastValue(Effective(request, original, response), k)
  {
    var log := CallLog(request, original, response);
    CreateLlmSpanSyncProperties(spanName, bag, current, log, original);
    CallLogAssignments(request, original, response);
  }

  /**
   * The same body with the request helper as written: when the call's
   * keyword arguments contain "model", the helper raises before anything
   * else, so the original API is never called and the caller gets the
   * `TypeError`.
   */
  function TracedCallAsWritten<R>(spanName: string, bag: Attrs, current: Parent, model: PyValue, kwargs: Attrs,
                                  extraRequest: Writes, original: Outcome<R>, response: Writes,
                                  usage: seq<TokenUsage>): Call<R> {
    match SetRequestAttributesAsWritten(model, kwargs)
    case Err(e) => Call(CreateLlmSpanSync(spanName, bag, current, [], Raised(e)), [])
    case Ok(request) => TracedCall(spanName, bag, current, request + extraRequest, original, response, usage)
  }

  /**
   * As written, any call passing `model=` ends in `TypeError` whatever the
   * API would have answered, records no usage, and leaves a span with no
   * request attribute; without `model=` it is the corrected call.
   */
  lemma TracedCallAsWrittenDefect<R>(spanName: string, bag: Attrs, current: Parent, model: PyValue, kwargs: Attrs,
                                     extraRequest: Writes, original: Outcome<R>, response: Writes,
                                     usage: seq<TokenUsage>)
    ensures var c := TracedCallAsWritten(spanName, bag, current, model, kwargs, extraRequest, original, response, usage);
            "model" in OrderedDict.Keys(kwargs) ==>
              && c.traced.outcome.Raised? && c.traced.outcome.error.className == "TypeError"
              && c.traced.span.name == spanName
              && c.usage == [] && Assignments(c.traced.log) == [] && Events(c.traced.log) == []
              && CountEnds(c.traced.log) == 1 && LastStatus(c.traced.log).Some?
              && LastStatus(c.traced.log).value.0 == StatusError
    ensures "model" !in OrderedDict.Keys(kwargs) ==>
              TracedCallAsWritten(spanName, bag, current, model, kwargs, extraRequest, original, response, usage)
              == TracedCall(spanName, bag, current, RequestWrites(model, kwargs) + extraRequest, original, response, usage)
  {
    if "model" in OrderedDict.Keys(kwargs) {
      TracedCallModelClash(spanName, bag, current, model, kwargs, extraRequest, original, response, usage);
    }
  }

  lemma TracedCallModelClash<R>(spanName: string, bag: Attrs, current: Parent, model: PyValue, kwargs: Attrs,
                                extraRequest: Writes, original: Outcome<R>, response: Writes,
                                usage: seq<TokenUsage>)
    requires "model" in OrderedDict.Keys(kwargs)
    ensures var c := TracedCallAsWritten(spanName, bag, current, model, kwargs, extraRequest, original, response, usage);
            && c.traced.outcome.Raised? && c.traced.outcome.error.className == "TypeError"
            && c.traced.span.name == spanName
            && c.usage == [] && Assignments(c.traced.log) == [] && Events(c.traced.log) == []
            && CountEnds(c.traced.log) == 1 && LastStatus(c.traced.log).Some?
            && LastStatus(c.traced.log).value.0 == StatusError
  {
    var e := SetRequestAttributesAsWritten(model, kwargs).error;
    var o: Outcome<R> := Raised(e);
    var t := CreateLlmSpanSync(spanName, bag, current, [], o);
    assert t.log == [RecordException(e), SetStatus(StatusError, Some(e.message)), End];
    AssignmentsNone(t.log);
    EventsNone(t.log);
    assert t.log[..2][..1] == [RecordException(e)];
    assert t.log[..2] == [RecordException(e), SetStatus(StatusError, Some(e.message))];
    CountEndsAppend([RecordException(e)], [SetStatus(StatusError, Some(e.message))]);
    CountEndsOne(RecordException(e));
    CountEndsOne(SetStatus(StatusError, Some(e.message)));
    CountEndsAppend(t.log[..2], [End]);
    CountEndsOne(End);
    assert t.log == t.log[..2] + [End];
  }

  // ---------------------------------------------------------------------------
  // Patching a client instance's methods
  // ---------------------------------------------------------------------------

  /**
   * One `_patch_method` call a client-instance hook makes: the object whose
   * attribute is patched (`None` when the `hasattr` guard in front of the
   * call fails), the attribute, and the wrapper it installs.
   */
  datatype Target = Target(obj: Option<nat>, attr: string, wrapper: string)

  /** The hook's `_patch_method` calls, in order. */
  function PatchAll(a: Adapter, slots: Slots, targets: seq<Target>): (Adapter, Slots)
    decreases |targets|
  {
    if |targets| == 0 then (a, slots)
    else
      var (a', slots') := PatchAll(a, slots, targets[..|targets| - 1]);
      var t := targets[|targets| - 1];
      if t.obj.Some? then PatchMethod(a', slots', t.obj.value, t.attr, t.wrapper) else (a', slots')
  }

  /** The slot a target names, when its guard passed. */
  predicate Aims(t: Target, s: (nat, string)) {
    t.obj.Some? && (t.obj.value, t.attr) == s
  }

  /**
   * With targets naming distinct slots: every slot a target aims at that
   * exists gets that target's wrapper around what was there, and its
   * original is saved; every other slot is untouched; no slot is created;
   * and the adapter's flag, name and constructors do not change.
   */
  lemma {:induction false} PatchAllProperties(a: Adapter, slots: Slots, targets: seq<Target>)
    requires forall i, j :: 0 <= i < j < |targets| && targets[i].obj.Some? && targets[j].obj.Some? ==>
               (targets[i].obj.value, targets[i].attr) != (targets[j].obj.value, targets[j].attr)
    ensures var (a', slots') := PatchAll(a, slots, targets);
            && slots'.Keys == slots.Keys
            && a' == a.(originalMethods := a'.originalMethods)
            && (forall i :: 0 <= i < |targets| && targets[i].obj.Some? && (targets[i].obj.value, targets[i].attr) in slots ==>
                  && slots'[(targets[i].obj.value, targets[i].attr)] ==
                     Wrapped(targets[i].wrapper, slots[(targets[i].obj.value, targets[i].attr)])
                  && SlotKey(targets[i].obj.value, targets[i].attr) in a'.originalMethods
                  && a'.originalMethods[SlotKey(targets[i].obj.value, targets[i].attr)] ==
                     slots[(targets[i].obj.value, targets[i].attr)])
            && (forall s :: s in slots && (forall i :: 0 <= i < |targets| ==> !Aims(targets[i], s)) ==> slots'[s] == slots[s])
    decreases |targets|
  {
    if targets != [] {
      var n := |targets| - 1;
      var init, t := targets[..n], targets[n];
      assert forall i :: 0 <= i < n ==> init[i] == targets[i];
      PatchAllProperties(a, slots, init);
      var (a1, slots1) := PatchAll(a, slots, init);
      if t.obj.Some? && (t.obj.value, t.attr) in slots1 {
        var s := (t.obj.value, t.attr);
        PatchMethodProperties(a1, slots1, s.0, s.1, t.wrapper);
        assert forall i :: 0 <= i < n ==> !Aims(init[i], s);
        assert slots1[s] == slots[s];
        forall i | 0 <= i < n && init[i].obj.Some?
          ensures SlotKey(init[i].obj.value, init[i].attr) != SlotKey(s.0, s.1)
        {
          if SlotKey(init[i].obj.value, init[i].attr) == SlotKey(s.0, s.1) {
            SlotKeyInjective(init[i].obj.value, init[i].attr, s.0, s.1);
          }
        }
      }
    }
  }
}
