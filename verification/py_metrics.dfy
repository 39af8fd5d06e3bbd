/**
 * The Python metrics recorder (`metrics.py`): four OpenTelemetry
 * instruments, and one recorder method per kind of measurement. A
 * recorder is modelled by the measurements it hands to the instruments,
 * in order.
 */
module PyMetrics {
  import opened Wrappers
  import opened PyValues
  import OrderedDict
  import PyTypes

  /** The instruments `__init__` creates, by name. */
  datatype Instrument = TokenCounter | LatencyHistogram | ErrorCounter | CostCounter

  function InstrumentName(i: Instrument): (name: string)
    ensures name in ["untrace.tokens.total", "untrace.latency", "untrace.errors.total", "untrace.cost.total"]
  {
    match i
    case TokenCounter => "untrace.tokens.total"
    case LatencyHistogram => "untrace.latency"
    case ErrorCounter => "untrace.errors.total"
    case CostCounter => "untrace.cost.total"
  }

  /** One `add` on a counter or `record` on the histogram: the instrument, the amount and the attributes. */
  datatype Measurement = Measurement(instrument: Instrument, amount: real, attributes: Attrs)

  /** Python truthiness of an optional count: present and non-zero. */
  predicate Truthy(n: Option<int>) {
    n.Some? && n.value != 0
  }

  predicate TruthyReal(x: Option<real>) {
    x.Some? && x.value != 0.0
  }

  /** The tags every token measurement carries, with its token type. */
  function TokenTags(u: PyTypes.TokenUsage, tokenType: string): Attrs {
    [("model", u.model), ("provider", PStr(u.provider)), ("token_type", PStr(tokenType))]
  }

  /** One `if count: add(count, {**attributes, "token_type": tokenType})`. */
  function MeasureTokens(u: PyTypes.TokenUsage, tokenType: string, n: Option<int>): seq<Measurement> {
    if Truthy(n) then [Measurement(TokenCounter, n.value as real, TokenTags(u, tokenType))] else []
  }

  /** `record_token_usage(usage)`: the prompt, completion and total counts, in that order. */
  function RecordTokenUsage(u: PyTypes.TokenUsage): seq<Measurement> {
    MeasureTokens(u, "prompt", u.promptTokens) + MeasureTokens(u, "completion", u.completionTokens)
      + MeasureTokens(u, "total", u.totalTokens)
  }

  /** The amounts of the measurements whose `tag` attribute is `value`, in order. */
  function Tagged(ms: seq<Measurement>, tag: string, value: string): seq<real>
    decreases |ms|
  {
    if |ms| == 0 then []
    else Tagged(ms[..|ms| - 1], tag, value)
         + (if OrderedDict.Get(ms[|ms| - 1].attributes, tag) == Some(PStr(value)) then [ms[|ms| - 1].amount] else [])
  }

  lemma {:induction false} TaggedConcat(a: seq<Measurement>, b: seq<Measurement>, tag: string, value: string)
    ensures Tagged(a + b, tag, value) == Tagged(a, tag, value) + Tagged(b, tag, value)
    decreases |b|
  {
    if b == [] {
      assert a + b == a;
    } else {
      assert (a + b)[..|a + b| - 1] == a + b[..|b| - 1];
      TaggedConcat(a, b[..|b| - 1], tag, value);
    }
  }

  lemma TokenTagsProperties(u: PyTypes.TokenUsage, tokenType: string, other: string)
    ensures var tags := TokenTags(u, tokenType);
            && OrderedDict.Keys(tags) == ["model", "provider", "token_type"]
            && OrderedDict.Get(tags, "model") == Some(u.model)
            && OrderedDict.Get(tags, "provider") == Some(PStr(u.provider))
            && (OrderedDict.Get(tags, "token_type") == Some(PStr(other)) <==> other == tokenType)
  {
    var tags := TokenTags(u, tokenType);
    assert OrderedDict.Keys(tags) == ["model", "provider", "token_type"];
    OrderedDict.GetAt(tags, 0);
    OrderedDict.GetAt(tags, 1);
    OrderedDict.GetAt(tags, 2);
  }

  /** A single measurement, tagged with its own token type only. */
  lemma MeasureTokensTagged(u: PyTypes.TokenUsage, tokenType: string, n: Option<int>, other: string)
    ensures Tagged(MeasureTokens(u, tokenType, n), "token_type", other) ==
            (if other == tokenType && Truthy(n) then [n.value as real] else [])
  {
    TokenTagsProperties(u, tokenType, other);
    if Truthy(n) {
      var ms := MeasureTokens(u, tokenType, n);
      assert ms[..0] == [];
    }
  }

  /**
   * Every measurement goes to the token counter, tagged with the usage's
   * model and provider and a token type, and nothing else.
   */
  lemma RecordTokenUsageTags(u: PyTypes.TokenUsage)
    ensures forall m :: m in RecordTokenUsage(u) ==>
              && m.instrument == TokenCounter
              && OrderedDict.Keys(m.attributes) == ["model", "provider", "token_type"]
              && OrderedDict.Get(m.attributes, "model") == Some(u.model)
              && OrderedDict.Get(m.attributes, "provider") == Some(PStr(u.provider))
  {
    TokenTagsProperties(u, "prompt", "prompt");
    TokenTagsProperties(u, "completion", "completion");
    TokenTagsProperties(u, "total", "total");
  }

  /**
   * A prompt, completion or total count is measured, once and with its
   * value, exactly when it is truthy, so a missing or zero count adds
   * nothing.
   */
  lemma RecordTokenUsageCounts(u: PyTypes.TokenUsage, t: string)
    requires t in ["prompt", "completion", "total"]
    ensures var n := if t == "prompt" then u.promptTokens else if t == "completion" then u.completionTokens else u.totalTokens;
            Tagged(RecordTokenUsage(u), "token_type", t) == (if Truthy(n) then [n.value as real] else [])
  {
    var a, b, c := MeasureTokens(u, "prompt", u.promptTokens), MeasureTokens(u, "completion", u.completionTokens),
                   MeasureTokens(u, "total", u.totalTokens);
    assert RecordTokenUsage(u) == (a + b) + c;
    TaggedConcat(a + b, c, "token_type", t);
    TaggedConcat(a, b, "token_type", t);
    var ta, tb, tc := Tagged(a, "token_type", t), Tagged(b, "token_type", t), Tagged(c, "token_type", t);
    assert Tagged(RecordTokenUsage(u), "token_type", t) == ta + tb + tc;
    MeasureTokensTagged(u, "prompt", u.promptTokens, t);
    MeasureTokensTagged(u, "completion", u.completionTokens, t);
    MeasureTokensTagged(u, "total", u.totalTokens, t);
    if t == "prompt" {
      assert tb == [] && tc == [];
    } else if t == "completion" {
      assert ta == [] && tc == [];
    } else {
      assert ta == [] && tb == [];
    }
  }

  /** `record_latency(duration_ms, attributes)`: the duration, with the attributes or `{}`. */
  function RecordLatency(durationMs: real, attributes: Option<Attrs>): (ms: seq<Measurement>)
    ensures |ms| == 1 && ms[0].instrument == LatencyHistogram && ms[0].amount == durationMs
    ensures ms[0].attributes == (if attributes.Some? then attributes.value else [])
  {
    [Measurement(LatencyHistogram, durationMs, attributes.GetOr([]))]
  }

  /**
   * `record_error(error, attributes)`: +1 on the error counter, tagged with
   * the error's class name and message, then the caller's attributes.
   */
  function RecordError(error: PyException, attributes: Option<Attrs>): seq<Measurement> {
    var tags := [("error_type", PStr(error.className)), ("error_message", PStr(error.message))];
    [Measurement(ErrorCounter, 1.0, OrderedDict.Update(tags, attributes.GetOr([])))]
  }

  /**
   * Exactly one +1 is made on the error counter. Its `error_type` is the
   * class name and its `error_message` the message unless the caller's
   * attributes give their own, which win; every caller attribute is there.
   */
  lemma RecordErrorProperties(error: PyException, attributes: Option<Attrs>)
    ensures var ms := RecordError(error, attributes);
            var extra := attributes.GetOr([]);
            && |ms| == 1 && ms[0].instrument == ErrorCounter && ms[0].amount == 1.0
            && OrderedDict.Get(ms[0].attributes, "error_type") ==
               (if "error_type" in OrderedDict.Keys(extra) then OrderedDict.Get(extra, "error_type") else Some(PStr(error.className)))
            && OrderedDict.Get(ms[0].attributes, "error_message") ==
               (if "error_message" in OrderedDict.Keys(extra) then OrderedDict.Get(extra, "error_message") else Some(PStr(error.message)))
            && (forall k :: k in OrderedDict.Keys(extra) ==> OrderedDict.Get(ms[0].attributes, k) == OrderedDict.Get(extra, k))
  {
    var tags := [("error_type", PStr(error.className)), ("error_message", PStr(error.message))];
    assert OrderedDict.Keys(tags) == ["error_type", "error_message"];
    assert OrderedDict.Get(tags, "error_type") == Some(PStr(error.className));
    assert OrderedDict.Get(tags, "error_message") == Some(PStr(error.message));
    OrderedDict.UpdateProperties(tags, attributes.GetOr([]));
  }

  /** The tags a cost measurement carries before its cost type: model, provider, currency, then the caller's. */
  function CostTags(cost: PyTypes.Cost, attributes: Option<Attrs>): Attrs {
    OrderedDict.Update([("model", cost.model), ("provider", PStr(cost.provider)), ("currency", PStr(cost.currency))],
                       attributes.GetOr([]))
  }

  /**
   * `record_cost(cost, attributes)`: the prompt and completion costs when
   * truthy, then the total always, each tagged with its cost type.
   */
  function RecordCost(cost: PyTypes.Cost, attributes: Option<Attrs>): seq<Measurement> {
    var tags := CostTags(cost, attributes);
    (if TruthyReal(cost.prompt) then [Measurement(CostCounter, cost.prompt.value, OrderedDict.Set(tags, "cost_type", PStr("prompt")))] else [])
      + (if TruthyReal(cost.completion) then [Measurement(CostCounter, cost.completion.value, OrderedDict.Set(tags, "cost_type", PStr("completion")))] else [])
      + [Measurement(CostCounter, cost.total, OrderedDict.Set(tags, "cost_type", PStr("total")))]
  }

  /** The cost type a measurement is tagged with. */
  function CostType(m: Measurement): Option<PyValue> {
    OrderedDict.Get(m.attributes, "cost_type")
  }

  lemma CostTagsUnique(cost: PyTypes.Cost, attributes: Option<Attrs>)
    ensures OrderedDict.UniqueKeys(CostTags(cost, attributes))
  {
    var base := [("model", cost.model), ("provider", PStr(cost.provider)), ("currency", PStr(cost.currency))];
    assert OrderedDict.Keys(base) == ["model", "provider", "currency"];
    OrderedDict.UpdateProperties(base, attributes.GetOr([]));
  }

  /**
   * Every measurement goes to the cost counter; the last is the total,
   * always made, even when it is zero; before it come the prompt and then
   * the completion cost, each exactly when truthy; each carries its cost
   * type, which no caller attribute can override.
   */
  lemma RecordCostProperties(cost: PyTypes.Cost, attributes: Option<Attrs>)
    ensures var ms := RecordCost(cost, attributes);
            var n := (if TruthyReal(cost.prompt) then 1 else 0) + (if TruthyReal(cost.completion) then 1 else 0);
            && |ms| == n + 1
            && (forall i :: 0 <= i < |ms| ==> ms[i].instrument == CostCounter)
            && ms[n].amount == cost.total && CostType(ms[n]) == Some(PStr("total"))
            && (TruthyReal(cost.prompt) ==> ms[0].amount == cost.prompt.value && CostType(ms[0]) == Some(PStr("prompt")))
            && (TruthyReal(cost.completion) ==>
                  ms[n - 1].amount == cost.completion.value && CostType(ms[n - 1]) == Some(PStr("completion")))
  {
    var tags := CostTags(cost, attributes);
    CostTagsUnique(cost, attributes);
    var pm := if TruthyReal(cost.prompt) then [Measurement(CostCounter, cost.prompt.value, OrderedDict.Set(tags, "cost_type", PStr("prompt")))] else [];
    var cm := if TruthyReal(cost.completion) then [Measurement(CostCounter, cost.completion.value, OrderedDict.Set(tags, "cost_type", PStr("completion")))] else [];
    var tm := Measurement(CostCounter, cost.total, OrderedDict.Set(tags, "cost_type", PStr("total")));
    var ms := RecordCost(cost, attributes);
    assert ms == pm + cm + [tm];
    assert CostType(tm) == Some(PStr("total")) by {
      OrderedDict.SetProperties(tags, "cost_type", PStr("total"));
    }
    assert ms[|pm + cm|] == tm;
    if TruthyReal(cost.prompt) {
      assert CostType(pm[0]) == Some(PStr("prompt")) by {
        OrderedDict.SetProperties(tags, "cost_type", PStr("prompt"));
      }
      assert ms[0] == pm[0];
    }
    if TruthyReal(cost.completion) {
      assert CostType(cm[0]) == Some(PStr("completion")) by {
        OrderedDict.SetProperties(tags, "cost_type", PStr("completion"));
      }
      assert ms[|pm + cm| - 1] == cm[0];
    }
  }
}
