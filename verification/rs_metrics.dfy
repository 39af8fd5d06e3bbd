/**
 * The Rust SDK's metrics recorder (`metrics.rs`): each call is modelled by
 * the one measurement it hands its OpenTelemetry instrument. Durations are
 * in nanoseconds. A loop over a `HashMap` visits its keys in an
 * unspecified order, given here as `order`.
 */
module RsMetrics {
  import opened Wrappers
  import opened GoValues
  import RsTypes
  import RsAttributes
  import E = RsErrors
  import GoMetrics

  type Measurement = GoMetrics.Measurement

  /** `record_token_usage(usage)`: only the total goes to the token counter, even when zero. */
  function RecordTokenUsage(u: RsTypes.TokenUsage): (Measurement, Result<(), E.UntraceError>) {
    (GoMetrics.Measurement("untrace.token_usage", u.totalTokens as real,
                           [KeyValue("provider", AString(u.provider)), KeyValue("model", AString(u.model))]),
     Ok(()))
  }

  /**
   * The token counter gets the total, tagged with provider then model; the
   * prompt and completion counts do not reach it, and the call succeeds.
   */
  lemma RecordTokenUsageProperties(u: RsTypes.TokenUsage, prompt: RsTypes.U32, completion: RsTypes.U32)
    ensures var (m, r) := RecordTokenUsage(u);
            && r.Ok? && m.instrument == "untrace.token_usage" && m.amount == u.totalTokens as real
            && Keys(m.attributes) == ["provider", "model"]
            && m.attributes[0].value == AString(u.provider) && m.attributes[1].value == AString(u.model)
            && RecordTokenUsage(u.(promptTokens := prompt, completionTokens := completion)) == (m, r)
  {
  }

  /** `record_cost(cost)`: only the total goes to the cost counter. */
  function RecordCost(c: RsTypes.Cost): (Measurement, Result<(), E.UntraceError>) {
    (GoMetrics.Measurement("untrace.cost", c.total,
                           [KeyValue("provider", AString(c.provider)), KeyValue("model", AString(c.model)),
                            KeyValue("currency", AString(c.currency))]),
     Ok(()))
  }

  /**
   * The cost counter gets the total, tagged with provider, model and
   * currency; the prompt and completion parts do not reach it.
   */
  lemma RecordCostProperties(c: RsTypes.Cost, prompt: real, completion: real)
    ensures var (m, r) := RecordCost(c);
            && r.Ok? && m.instrument == "untrace.cost" && m.amount == c.total
            && Keys(m.attributes) == ["provider", "model", "currency"]
            && m.attributes[2].value == AString(c.currency)
            && RecordCost(c.(prompt := prompt, completion := completion)) == (m, r)
  {
  }

  /** `Duration::as_millis()`: whole milliseconds, rounded down. */
  function Millis(durationNs: nat): (ms: nat)
    ensures ms * 1_000_000 <= durationNs < (ms + 1) * 1_000_000
  {
    durationNs / 1_000_000
  }

  /** `record_latency(duration, attributes)`. */
  function RecordLatency(durationNs: nat, attrs: map<string, string>, order: seq<string>): (Measurement, Result<(), E.UntraceError>)
    requires Enumerates(order, attrs.Keys)
  {
    (GoMetrics.Measurement("untrace.latency", Millis(durationNs) as real, RsAttributes.CreateAttributes(attrs, order)),
     Ok(()))
  }

  /**
   * The latency histogram gets the duration in whole milliseconds, the
   * sub-millisecond rest dropped, with one attribute per caller entry.
   */
  lemma RecordLatencyProperties(durationNs: nat, attrs: map<string, string>, order: seq<string>)
    requires Enumerates(order, attrs.Keys)
    ensures var (m, r) := RecordLatency(durationNs, attrs, order);
            && r.Ok? && m.instrument == "untrace.latency"
            && m.amount * 1_000_000.0 <= durationNs as real < (m.amount + 1.0) * 1_000_000.0
            && |m.attributes| == |attrs|
            && (forall i :: 0 <= i < |m.attributes| ==> m.attributes[i].value == AString(attrs[m.attributes[i].key]))
  {
    RsAttributes.CreateAttributesProperties(attrs, order);
    var ms := Millis(durationNs);
    assert ms * 1_000_000 <= durationNs < (ms + 1) * 1_000_000;
    assert (ms as real) * 1_000_000.0 == (ms * 1_000_000) as real;
    assert (ms as real + 1.0) * 1_000_000.0 == ((ms + 1) * 1_000_000) as real;
  }

  /** `record_error(error_type, attributes)`. */
  function RecordError(errorType: string, attrs: map<string, string>, order: seq<string>): (Measurement, Result<(), E.UntraceError>)
    requires Enumerates(order, attrs.Keys)
  {
    (GoMetrics.Measurement("untrace.errors", 1.0,
                           [KeyValue("error_type", AString(errorType))] + RsAttributes.CreateAttributes(attrs, order)),
     Ok(()))
  }

  /**
   * The error counter gets 1, tagged first with the error type and then
   * with one attribute per caller entry.
   */
  lemma RecordErrorProperties(errorType: string, attrs: map<string, string>, order: seq<string>)
    requires Enumerates(order, attrs.Keys)
    ensures var (m, r) := RecordError(errorType, attrs, order);
            && r.Ok? && m.instrument == "untrace.errors" && m.amount == 1.0
            && m.attributes[0] == KeyValue("error_type", AString(errorType))
            && |m.attributes| == |attrs| + 1
            && (forall k :: k in attrs <==> k in Keys(m.attributes[1..]))
  {
    RsAttributes.CreateAttributesProperties(attrs, order);
    RecordErrorTail(errorType, attrs, order);
  }

  /** Each caller tag of the error counter carries its entry's value, each key once. */
  lemma RecordErrorValues(errorType: string, attrs: map<string, string>, order: seq<string>)
    requires Enumerates(order, attrs.Keys)
    ensures var tail := RecordError(errorType, attrs, order).0.attributes[1..];
            && (forall i :: 0 <= i < |tail| ==> tail[i].key in attrs && tail[i].value == AString(attrs[tail[i].key]))
            && (forall i, j :: 0 <= i < j < |tail| ==> tail[i].key != tail[j].key)
  {
    RecordErrorTail(errorType, attrs, order);
    var kvs := RsAttributes.CreateAttributes(attrs, order);
    assert forall i :: 0 <= i < |kvs| ==> kvs[i].key == order[i] && order[i] in attrs;
  }

  /** The caller's part of the error tags is exactly `create_attributes` of the entries. */
  lemma RecordErrorTail(errorType: string, attrs: map<string, string>, order: seq<string>)
    requires Enumerates(order, attrs.Keys)
    ensures RecordError(errorType, attrs, order).0.attributes[1..] == RsAttributes.CreateAttributes(attrs, order)
  {
  }
}
