/**
 * The Go SDK's tracer (`tracer.go`): the attribute list of an LLM span,
 * the typed conversion of an attribute map, and the start options a span
 * gets. The OpenTelemetry tracer that starts the span is represented by
 * what it is handed.
 */
module GoTracer {
  import opened Wrappers
  import opened GoValues

  /** `trace.SpanKind`: the zero value is `Unspecified`, not `Internal`. */
  datatype SpanKind = Unspecified | Internal | Server | Client | Producer | Consumer

  /** `trace.SpanContext`, by its trace and span ids; it is valid when neither id is zero. */
  datatype SpanContext = SpanContext(traceId: nat, spanId: nat)

  predicate IsValid(sc: SpanContext) {
    sc.traceId != 0 && sc.spanId != 0
  }

  /** `SpanOptions`. */
  datatype SpanOptions = SpanOptions(name: string, kind: SpanKind, attributes: GoMap, parent: SpanContext)

  /** `LLMSpanOptions`: a pointer field is `None` when nil. */
  datatype LLMSpanOptions = LLMSpanOptions(
    provider: string, model: string, operation: string,
    promptTokens: Option<int>, completionTokens: Option<int>, totalTokens: Option<int>,
    temperature: Option<real>, topP: Option<real>, maxTokens: Option<int>, stream: Option<bool>,
    tools: Option<string>, toolCalls: Option<string>, durationMs: Option<int>,
    costPrompt: Option<real>, costCompletion: Option<real>, costTotal: Option<real>,
    error: Option<string>, errorType: Option<string>, requestId: Option<string>, usageReason: Option<string>,
    attributes: GoMap)

  /** The type switch of `buildAttributes`: typed where a case matches, the `%v` text otherwise. */
  function ConvertValue(v: GoValue): AttrValue {
    match v
    case GString(s) => AString(s)
    case GInt(i) => AInt64(i)
    case GInt64(i) => AInt64(i)
    case GFloat64(f) => AFloat64(f)
    case GBool(b) => ABool(b)
    case GStrings(ss) => AStrings(ss)
    case GInts(ns) => AInt64s(ns)
    case GFloat64s(fs) => AFloat64s(fs)
    case GTime(rfc3339, _) => AString(rfc3339)
    case _ => AString(Display(v))
  }

  /**
   * Strings, integers, floats, booleans and their slices keep their value
   * under the matching attribute type; a time becomes its RFC 3339 text;
   * anything else becomes its `%v` text.
   */
  lemma ConvertValueCases(v: GoValue)
    ensures v.GString? ==> ConvertValue(v) == AString(v.s)
    ensures (v.GInt? || v.GInt64?) ==> ConvertValue(v) == AInt64(v.i)
    ensures v.GFloat64? ==> ConvertValue(v) == AFloat64(v.f)
    ensures v.GBool? ==> ConvertValue(v) == ABool(v.b)
    ensures v.GStrings? ==> ConvertValue(v) == AStrings(v.ss)
    ensures v.GInts? ==> ConvertValue(v) == AInt64s(v.ns)
    ensures v.GFloat64s? ==> ConvertValue(v) == AFloat64s(v.fs)
    ensures v.GTime? ==> ConvertValue(v) == AString(v.rfc3339)
    ensures Untyped(v) && !v.GTime? ==> ConvertValue(v) == AString(Display(v))
  {
  }

  /** `buildAttributes(attrs)`, visiting the map's keys in `order`. */
  function BuildAttributes(attrs: GoMap, order: seq<string>): seq<KeyValue>
    requires Enumerates(order, attrs.Keys)
  {
    seq(|order|, i requires 0 <= i < |order| => KeyValue(order[i], ConvertValue(attrs[order[i]])))
  }

  /**
   * One attribute per map entry: the keys are the map's, each once, and
   * each carries its entry's converted value.
   */
  lemma BuildAttributesProperties(attrs: GoMap, order: seq<string>)
    requires Enumerates(order, attrs.Keys)
    ensures var kvs := BuildAttributes(attrs, order);
            && |kvs| == |attrs|
            && (forall k :: k in Keys(kvs) <==> k in attrs)
            && (forall i, j :: 0 <= i < j < |kvs| ==> kvs[i].key != kvs[j].key)
            && (forall i :: 0 <= i < |kvs| ==> kvs[i].value == ConvertValue(attrs[kvs[i].key]))
  {
    var kvs := BuildAttributes(attrs, order);
    assert Keys(kvs) == order;
    DistinctCard(order);
  }

  /** A list of distinct names is as long as the set of its names. */
  lemma {:induction false} DistinctCard(order: seq<string>)
    requires forall i, j :: 0 <= i < j < |order| ==> order[i] != order[j]
    ensures |set k | k in order| == |order|
    decreases |order|
  {
    if order != [] {
      var init := order[..|order| - 1];
      DistinctCard(init);
      assert (set k | k in order) == (set k | k in init) + {order[|order| - 1]};
      assert order[|order| - 1] !in (set k | k in init);
    }
  }

  /** The fixed keys of the optional LLM attributes, in the order `buildLLMAttributes` appends them. */
  const OptionalKeys: seq<string> :=
    ["llm.prompt.tokens", "llm.completion.tokens", "llm.total.tokens", "llm.temperature", "llm.top_p",
     "llm.max_tokens", "llm.stream", "llm.tools", "llm.tool_calls", "llm.duration_ms", "llm.cost.prompt",
     "llm.cost.completion", "llm.cost.total", "llm.error", "llm.error.type", "llm.request.id", "llm.usage.reason"]

  function IntAttr(p: Option<int>): Option<AttrValue> { if p.Some? then Some(AInt64(p.value)) else None }
  function FloatAttr(p: Option<real>): Option<AttrValue> { if p.Some? then Some(AFloat64(p.value)) else None }
  function StringAttr(p: Option<string>): Option<AttrValue> { if p.Some? then Some(AString(p.value)) else None }

  /** Each optional field's value as an attribute, `None` for a nil pointer, in the order of `OptionalKeys`. */
  function OptionalValues(o: LLMSpanOptions): (vs: seq<Option<AttrValue>>)
    ensures |vs| == |OptionalKeys|
  {
    [IntAttr(o.promptTokens), IntAttr(o.completionTokens), IntAttr(o.totalTokens), FloatAttr(o.temperature),
     FloatAttr(o.topP), IntAttr(o.maxTokens), if o.stream.Some? then Some(ABool(o.stream.value)) else None,
     StringAttr(o.tools), StringAttr(o.toolCalls), IntAttr(o.durationMs), FloatAttr(o.costPrompt),
     FloatAttr(o.costCompletion), FloatAttr(o.costTotal), StringAttr(o.error), StringAttr(o.errorType),
     StringAttr(o.requestId), StringAttr(o.usageReason)]
  }

  /** The `if p != nil { attrs = append(...) }` chain over `keys` and `values` from index `i` on. */
  function Present(keys: seq<string>, values: seq<Option<AttrValue>>, i: nat): seq<KeyValue>
    requires |keys| == |values| && i <= |keys|
    decreases |keys| - i
  {
    if i == |keys| then []
    else (if values[i].Some? then [KeyValue(keys[i], values[i].value)] else []) + Present(keys, values, i + 1)
  }

  /** `buildLLMAttributes(opts)`, the custom attributes visited in `order`. */
  function BuildLLMAttributes(o: LLMSpanOptions, order: seq<string>): seq<KeyValue>
    requires Enumerates(order, o.attributes.Keys)
  {
    [KeyValue("llm.provider", AString(o.provider)), KeyValue("llm.model", AString(o.model)),
     KeyValue("llm.operation.type", AString(o.operation))]
      + Present(OptionalKeys, OptionalValues(o), 0) + BuildAttributes(o.attributes, order)
  }

  /**
   * The chain appends, in order, exactly one attribute per present value,
   * under that value's key, and nothing for an absent one.
   */
  lemma PresentProperties(keys: seq<string>, values: seq<Option<AttrValue>>, i: nat)
    requires |keys| == |values| && i <= |keys|
    requires forall a, b :: 0 <= a < b < |keys| ==> keys[a] != keys[b]
    ensures forall kv :: kv in Present(keys, values, i) <==>
              exists j :: i <= j < |keys| && values[j] == Some(kv.value) && keys[j] == kv.key
    ensures forall j :: i <= j < |keys| ==> (keys[j] in Keys(Present(keys, values, i)) <==> values[j].Some?)
  {
    PresentMembers(keys, values, i);
    PresentKeys(keys, values, i);
  }

  /** The chain holds an attribute exactly when some present value sits under its key. */
  lemma {:induction false} PresentMembers(keys: seq<string>, values: seq<Option<AttrValue>>, i: nat)
    requires |keys| == |values| && i <= |keys|
    ensures forall kv :: kv in Present(keys, values, i) <==>
              exists j :: i <= j < |keys| && values[j] == Some(kv.value) && keys[j] == kv.key
    decreases |keys| - i
  {
    if i < |keys| {
      PresentMembers(keys, values, i + 1);
      var rest := Present(keys, values, i + 1);
      var head := if values[i].Some? then [KeyValue(keys[i], values[i].value)] else [];
      assert Present(keys, values, i) == head + rest;
    }
  }

  /** With distinct keys, a key appears in the chain exactly when its value is present. */
  lemma {:induction false} PresentKeys(keys: seq<string>, values: seq<Option<AttrValue>>, i: nat)
    requires |keys| == |values| && i <= |keys|
    requires forall a, b :: 0 <= a < b < |keys| ==> keys[a] != keys[b]
    ensures forall j :: i <= j < |keys| ==> (keys[j] in Keys(Present(keys, values, i)) <==> values[j].Some?)
    decreases |keys| - i
  {
    if i < |keys| {
      PresentKeys(keys, values, i + 1);
      var rest := Present(keys, values, i + 1);
      var head := if values[i].Some? then [KeyValue(keys[i], values[i].value)] else [];
      assert Present(keys, values, i) == head + rest;
      assert Keys(head + rest) == Keys(head) + Keys(rest);
      assert keys[i] !in Keys(rest) by {
        PresentMembers(keys, values, i + 1);
        forall idx | 0 <= idx < |rest|
          ensures Keys(rest)[idx] != keys[i]
        {
          assert rest[idx] in rest;
          var j :| i + 1 <= j < |keys| && values[j] == Some(rest[idx].value) && keys[j] == rest[idx].key;
        }
      }
      assert Keys(head) == (if values[i].Some? then [keys[i]] else []);
      forall j | i <= j < |keys|
        ensures keys[j] in Keys(head + rest) <==> values[j].Some?
      {
        assert keys[j] in Keys(head + rest) <==> keys[j] in Keys(head) || keys[j] in Keys(rest);
        if j > i {
          assert keys[j] != keys[i];
        }
      }
    }
  }

  /**
   * An LLM span's attributes start with provider, model and operation
   * type, in that order, and end with the custom attributes; in between,
   * each optional field adds exactly one attribute under its own key when
   * set, and nothing when nil.
   */
  lemma BuildLLMAttributesLayout(o: LLMSpanOptions, order: seq<string>)
    requires Enumerates(order, o.attributes.Keys)
    ensures var kvs := BuildLLMAttributes(o, order);
            var fixed := Present(OptionalKeys, OptionalValues(o), 0);
            && Keys(kvs[..3]) == ["llm.provider", "llm.model", "llm.operation.type"]
            && kvs[..3] == [KeyValue("llm.provider", AString(o.provider)), KeyValue("llm.model", AString(o.model)),
                            KeyValue("llm.operation.type", AString(o.operation))]
            && kvs[3..3 + |fixed|] == fixed
            && kvs[3 + |fixed|..] == BuildAttributes(o.attributes, order)
  {
  }

  /**
   * Between the fixed and the custom attributes, each optional field adds
   * exactly one attribute under its own key, with its value, when set, and
   * nothing when nil.
   */
  lemma BuildLLMAttributesOptional(o: LLMSpanOptions)
    ensures var fixed := Present(OptionalKeys, OptionalValues(o), 0);
            && (forall j :: 0 <= j < |OptionalKeys| ==> (OptionalKeys[j] in Keys(fixed) <==> OptionalValues(o)[j].Some?))
            && (forall kv :: kv in fixed <==>
                  exists j :: 0 <= j < |OptionalKeys| && OptionalKeys[j] == kv.key && OptionalValues(o)[j] == Some(kv.value))
  {
    PresentProperties(OptionalKeys, OptionalValues(o), 0);
  }

  /** With every pointer nil, an LLM span gets the three fixed attributes and the custom ones only. */
  lemma AllNilAddsNothing(o: LLMSpanOptions, order: seq<string>)
    requires Enumerates(order, o.attributes.Keys)
    requires forall j :: 0 <= j < |OptionalValues(o)| ==> OptionalValues(o)[j].None?
    ensures BuildLLMAttributes(o, order) ==
            [KeyValue("llm.provider", AString(o.provider)), KeyValue("llm.model", AString(o.model)),
             KeyValue("llm.operation.type", AString(o.operation))] + BuildAttributes(o.attributes, order)
  {
    PresentNone(OptionalKeys, OptionalValues(o), 0);
  }

  lemma {:induction false} PresentNone(keys: seq<string>, values: seq<Option<AttrValue>>, i: nat)
    requires |keys| == |values| && i <= |keys|
    requires forall j :: i <= j < |values| ==> values[j].None?
    ensures Present(keys, values, i) == []
    decreases |keys| - i
  {
    if i < |keys| {
      PresentNone(keys, values, i + 1);
    }
  }

  /** A start option of `tracer.Start`. */
  datatype StartOption = WithSpanKind(kind: SpanKind) | WithAttributes(attributes: seq<KeyValue>)

  /** What `StartSpan` hands the OpenTelemetry tracer: the span's name, its parent, and its start options. */
  datatype SpanStart = SpanStart(name: string, parent: Option<SpanContext>, options: seq<StartOption>)

  /** `StartSpan(ctx, name, opts)`, the attribute map visited in `order`. */
  function StartSpan(name: string, opts: SpanOptions, order: seq<string>): SpanStart
    requires Enumerates(order, opts.attributes.Keys)
  {
    var kindOpt := if opts.kind != Internal then [WithSpanKind(opts.kind)] else [];
    var attrs := BuildAttributes(opts.attributes, order);
    SpanStart(name, if IsValid(opts.parent) then Some(opts.parent) else None,
              kindOpt + (if |attrs| > 0 then [WithAttributes(attrs)] else []))
  }

  /**
   * The kind is passed exactly when it is not `Internal`, so a zero-valued
   * kind is passed as `Unspecified`; the parent is used exactly when it is
   * valid; attributes are passed exactly when the map is not empty.
   */
  lemma StartSpanOptions(name: string, opts: SpanOptions, order: seq<string>)
    requires Enumerates(order, opts.attributes.Keys)
    ensures var s := StartSpan(name, opts, order);
            && s.name == name
            && (s.parent.Some? <==> IsValid(opts.parent))
            && (s.parent.Some? ==> s.parent.value == opts.parent)
            && (WithSpanKind(opts.kind) in s.options <==> opts.kind != Internal)
            && (forall k :: WithSpanKind(k) in s.options ==> k == opts.kind)
            && ((exists a :: WithAttributes(a) in s.options) <==> |opts.attributes| > 0)
            && |s.options| <= 2
  {
    BuildAttributesProperties(opts.attributes, order);
  }

  /** `StartLLMSpan(ctx, name, opts)`: no kind option and no parent of its own; the LLM attributes always. */
  function StartLLMSpan(name: string, o: LLMSpanOptions, order: seq<string>): (s: SpanStart)
    requires Enumerates(order, o.attributes.Keys)
    ensures s.parent.None? && |s.options| == 1 && s.options[0].WithAttributes?
  {
    SpanStart(name, None, [WithAttributes(BuildLLMAttributes(o, order))])
  }
}
