/**
 * The Go SDK's metrics recorder (`metrics.go`). Each call is modelled by
 * the measurements it hands the OpenTelemetry meter: which instrument,
 * the amount added or recorded, and the attributes attached.
 */
module GoMetrics {
  import opened GoValues
  import GoErrors
  import GoTracer

  datatype Measurement = Measurement(instrument: string, amount: real, attributes: seq<KeyValue>)

  /** `TokenUsage`. */
  datatype TokenUsage = TokenUsage(promptTokens: int, completionTokens: int, totalTokens: int, model: string, provider: string)

  /** `Cost`. */
  datatype Cost = Cost(prompt: real, completion: real, total: real, currency: string, model: string, provider: string)

  /** The amounts a list of measurements gives one instrument, in order. */
  function Amounts(ms: seq<Measurement>, instrument: string): seq<real>
    decreases |ms|
  {
    if |ms| == 0 then []
    else Amounts(ms[..|ms| - 1], instrument)
         + (if ms[|ms| - 1].instrument == instrument then [ms[|ms| - 1].amount] else [])
  }

  lemma {:induction false} AmountsConcat(a: seq<Measurement>, b: seq<Measurement>, instrument: string)
    ensures Amounts(a + b, instrument) == Amounts(a, instrument) + Amounts(b, instrument)
    decreases |b|
  {
    if b == [] {
      assert a + b == a;
    } else {
      assert (a + b)[..|a + b| - 1] == a + b[..|b| - 1];
      AmountsConcat(a, b[..|b| - 1], instrument);
    }
  }

  /** One counter's `Add`, made only for a positive amount. */
  function AddIfPositive(instrument: string, amount: real, attrs: seq<KeyValue>): seq<Measurement> {
    if amount > 0.0 then [Measurement(instrument, amount, attrs)] else []
  }

  lemma AddIfPositiveAmounts(instrument: string, amount: real, attrs: seq<KeyValue>, other: string)
    ensures Amounts(AddIfPositive(instrument, amount, attrs), instrument) == if amount > 0.0 then [amount] else []
    ensures other != instrument ==> Amounts(AddIfPositive(instrument, amount, attrs), other) == []
  {
    var ms := AddIfPositive(instrument, amount, attrs);
    if amount > 0.0 {
      assert ms[..0] == [];
    }
  }

  /** Three counters, each added to once when its amount is positive, all with the same attributes. */
  lemma ThreeCounters(n1: string, a1: real, n2: string, a2: real, n3: string, a3: real, attrs: seq<KeyValue>)
    requires n1 != n2 && n1 != n3 && n2 != n3
    ensures var ms := AddIfPositive(n1, a1, attrs) + AddIfPositive(n2, a2, attrs) + AddIfPositive(n3, a3, attrs);
            && Amounts(ms, n1) == (if a1 > 0.0 then [a1] else [])
            && Amounts(ms, n2) == (if a2 > 0.0 then [a2] else [])
            && Amounts(ms, n3) == (if a3 > 0.0 then [a3] else [])
            && forall m :: m in ms ==> m.attributes == attrs
  {
    var p := AddIfPositive(n1, a1, attrs);
    var c := AddIfPositive(n2, a2, attrs);
    var t := AddIfPositive(n3, a3, attrs);
    forall name | name == n1 || name == n2 || name == n3
      ensures Amounts(p + c + t, name) == Amounts(p, name) + Amounts(c, name) + Amounts(t, name)
    {
      AmountsConcat(p, c, name);
      AmountsConcat(p + c, t, name);
    }
    AddIfPositiveAmounts(n1, a1, attrs, n2);
    AddIfPositiveAmounts(n1, a1, attrs, n3);
    AddIfPositiveAmounts(n2, a2, attrs, n1);
    AddIfPositiveAmounts(n2, a2, attrs, n3);
    AddIfPositiveAmounts(n3, a3, attrs, n1);
    AddIfPositiveAmounts(n3, a3, attrs, n2);
  }

  /** `RecordTokenUsage(usage)`. */
  function RecordTokenUsage(u: TokenUsage): seq<Measurement> {
    var attrs := [KeyValue("model", AString(u.model)), KeyValue("provider", AString(u.provider))];
    AddIfPositive("llm.prompt.tokens", u.promptTokens as real, attrs)
      + AddIfPositive("llm.completion.tokens", u.completionTokens as real, attrs)
      + AddIfPositive("llm.total.tokens", u.totalTokens as real, attrs)
  }

  /**
   * Each of the three token counters gets its count once when the count is
   * positive and nothing otherwise, and every addition carries the model
   * and provider.
   */
  lemma RecordTokenUsageProperties(u: TokenUsage)
    ensures var ms := RecordTokenUsage(u);
            && Amounts(ms, "llm.prompt.tokens") == (if u.promptTokens > 0 then [u.promptTokens as real] else [])
            && Amounts(ms, "llm.completion.tokens") == (if u.completionTokens > 0 then [u.completionTokens as real] else [])
            && Amounts(ms, "llm.total.tokens") == (if u.totalTokens > 0 then [u.totalTokens as real] else [])
            && forall m :: m in ms ==>
                 m.attributes == [KeyValue("model", AString(u.model)), KeyValue("provider", AString(u.provider))]
  {
    ThreeCounters("llm.prompt.tokens", u.promptTokens as real, "llm.completion.tokens", u.completionTokens as real,
                  "llm.total.tokens", u.totalTokens as real,
                  [KeyValue("model", AString(u.model)), KeyValue("provider", AString(u.provider))]);
  }

  /** `RecordCost(cost)`. */
  function RecordCost(c: Cost): seq<Measurement> {
    var attrs := [KeyValue("model", AString(c.model)), KeyValue("provider", AString(c.provider)),
                  KeyValue("currency", AString(c.currency))];
    AddIfPositive("llm.cost.prompt", c.prompt, attrs)
      + AddIfPositive("llm.cost.completion", c.completion, attrs)
      + AddIfPositive("llm.cost.total", c.total, attrs)
  }

  /**
   * Each of the three cost counters gets its amount once when the amount is
   * positive and nothing otherwise, and every addition carries the model,
   * provider and currency.
   */
  lemma RecordCostProperties(c: Cost)
    ensures var ms := RecordCost(c);
            && Amounts(ms, "llm.cost.prompt") == (if c.prompt > 0.0 then [c.prompt] else [])
            && Amounts(ms, "llm.cost.completion") == (if c.completion > 0.0 then [c.completion] else [])
            && Amounts(ms, "llm.cost.total") == (if c.total > 0.0 then [c.total] else [])
            && forall m :: m in ms ==>
                 m.attributes == [KeyValue("model", AString(c.model)), KeyValue("provider", AString(c.provider)),
                                  KeyValue("currency", AString(c.currency))]
  {
    ThreeCounters("llm.cost.prompt", c.prompt, "llm.cost.completion", c.completion, "llm.cost.total", c.total,
                  [KeyValue("model", AString(c.model)), KeyValue("provider", AString(c.provider)),
                   KeyValue("currency", AString(c.currency))]);
  }

  /** The type switch of the recorder's `buildAttributes`: the tracer's, but with no case for times. */
  function MetricValue(v: GoValue): AttrValue {
    if v.GTime? then AString(Display(v)) else GoTracer.ConvertValue(v)
  }

  /** `buildAttributes(attrs)`, visiting the map's keys in `order`. */
  function BuildAttributes(attrs: GoMap, order: seq<string>): seq<KeyValue>
    requires Enumerates(order, attrs.Keys)
  {
    seq(|order|, i requires 0 <= i < |order| => KeyValue(order[i], MetricValue(attrs[order[i]])))
  }

  /** A string value in the map becomes a string attribute under its key. */
  lemma BuildAttributesHasString(attrs: GoMap, order: seq<string>, k: string, text: string)
    requires Enumerates(order, attrs.Keys) && k in attrs && attrs[k] == GString(text)
    ensures KeyValue(k, AString(text)) in BuildAttributes(attrs, order)
  {
    assert k in (set x | x in order);
    var i :| 0 <= i < |order| && order[i] == k;
    assert BuildAttributes(attrs, order)[i] == KeyValue(k, AString(text));
  }

  /**
   * The recorder converts attributes as the tracer does, in the same
   * order, except that a time becomes its `%v` text rather than its RFC
   * 3339 text.
   */
  lemma BuildAttributesAgreesWithTracer(attrs: GoMap, order: seq<string>)
    requires Enumerates(order, attrs.Keys)
    ensures var mine := BuildAttributes(attrs, order);
            var tracer := GoTracer.BuildAttributes(attrs, order);
            && |mine| == |tracer| && Keys(mine) == Keys(tracer)
            && forall i :: 0 <= i < |mine| ==>
                 (mine[i] == tracer[i] <==> !attrs[order[i]].GTime? || attrs[order[i]].text == attrs[order[i]].rfc3339)
  {
  }

  /** `RecordLatency(duration, attributes)`: the duration in nanoseconds, recorded in seconds. */
  function RecordLatency(durationNs: int, attrs: GoMap, order: seq<string>): (m: Measurement)
    requires Enumerates(order, attrs.Keys)
    ensures m.instrument == "llm.latency" && m.amount * 1000000000.0 == durationNs as real
    ensures |m.attributes| == |attrs| && m.attributes == BuildAttributes(attrs, order)
  {
    GoTracer.DistinctCard(order);
    Measurement("llm.latency", durationNs as real / 1000000000.0, BuildAttributes(attrs, order))
  }

  /** `RecordError(err, attributes)`. */
  function RecordError(err: GoErrors.GoError, attrs: GoMap, order: seq<string>): (m: Measurement)
    requires Enumerates(order, attrs.Keys)
    ensures m.instrument == "llm.errors" && m.amount == 1.0
    ensures |m.attributes| == |attrs| + 1
    ensures m.attributes[..|attrs|] == BuildAttributes(attrs, order)
    ensures m.attributes[|attrs|] == KeyValue("error.type", AString(GoErrors.ErrorText(err)))
  {
    GoTracer.DistinctCard(order);
    Measurement("llm.errors", 1.0, BuildAttributes(attrs, order) + [KeyValue("error.type", AString(GoErrors.ErrorText(err)))])
  }
}
