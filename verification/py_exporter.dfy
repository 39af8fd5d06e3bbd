/**
 * The Python span exporter: it converts finished OpenTelemetry spans to the
 * OTLP JSON shape, grouped by resource and instrumentation scope, and posts
 * them to the Untrace ingest endpoint.
 */
module PyExporter {
  import opened Wrappers
  import opened PyValues
  import opened Spans
  import OrderedDict
  import Digits
  import Text
  import Grouping
  import PyTypes
  import PyAttributes

  // ---------------------------------------------------------------------------
  // OTLP attribute values
  // ---------------------------------------------------------------------------

  datatype AnyValue =
    | StringValue(s: string)
    | BoolValue(b: bool)
    | IntValue(i: int)
    | DoubleValue(text: string)
    | ArrayValue(values: seq<AnyValue>)
    | KvlistValue(entries: seq<KeyValue>)

  datatype KeyValue = KeyValue(key: string, value: AnyValue)

  /**
   * `_convert_value`: strings, booleans, integers and floats keep their kind,
   * lists and tuples become arrays, dictionaries become key/value lists
   * without their `None` entries, and anything else becomes its `str()`.
   */
  function ConvertValue(v: PyValue): AnyValue
    decreases v, 1, 0
  {
    match v
    case PStr(s) => StringValue(s)
    case PBool(b) => BoolValue(b)
    case PInt(i) => IntValue(i)
    case PFloat(t) => DoubleValue(t)
    case PList(items) => ArrayValue(ConvertAll(v, items))
    case PTuple(items) => ArrayValue(ConvertAll(v, items))
    case PDict(entries) => KvlistValue(ConvertEntries(v, entries))
    case PNone => StringValue(Str(v))
    case PObject(_, _, _) => StringValue(Str(v))
  }

  function ConvertAll(ghost parent: PyValue, items: seq<PyValue>): (r: seq<AnyValue>)
    requires forall i :: 0 <= i < |items| ==> items[i] < parent
    ensures |r| == |items|
    decreases parent, 0, 0
  {
    seq(|items|, i requires 0 <= i < |items| => ConvertValue(items[i]))
  }

  /** The entries of a dictionary, in order, skipping those whose value is `None`. */
  function ConvertEntries(ghost parent: PyValue, entries: seq<(string, PyValue)>): seq<KeyValue>
    requires forall i :: 0 <= i < |entries| ==> entries[i].1 < parent
    decreases parent, 0, |entries|
  {
    if |entries| == 0 then []
    else
      var last := entries[|entries| - 1];
      ConvertEntries(parent, entries[..|entries| - 1])
        + (if last.1 == PNone then [] else [KeyValue(last.0, ConvertValue(last.1))])
  }

  /** `_convert_attributes`: one key/value per attribute that is not `None`. */
  function ConvertAttributes(attrs: Attrs): seq<KeyValue> {
    ConvertEntries(PDict(attrs), attrs)
  }

  /** Reading an OTLP value back as the Python value a receiver would rebuild. */
  function Decode(a: AnyValue): PyValue
    decreases a, 1
  {
    match a
    case StringValue(s) => PStr(s)
    case BoolValue(b) => PBool(b)
    case IntValue(i) => PInt(i)
    case DoubleValue(t) => PFloat(t)
    case ArrayValue(vs) => PList(DecodeAll(a, vs))
    case KvlistValue(kvs) => PDict(DecodeEntries(a, kvs))
  }

  function DecodeAll(ghost parent: AnyValue, vs: seq<AnyValue>): (r: seq<PyValue>)
    requires forall i :: 0 <= i < |vs| ==> vs[i] < parent
    ensures |r| == |vs|
    decreases parent, 0
  {
    seq(|vs|, i requires 0 <= i < |vs| => Decode(vs[i]))
  }

  function DecodeEntries(ghost parent: AnyValue, kvs: seq<KeyValue>): (r: seq<(string, PyValue)>)
    requires forall i :: 0 <= i < |kvs| ==> kvs[i] < parent
    ensures |r| == |kvs|
    decreases parent, 0
  {
    seq(|kvs|, i requires 0 <= i < |kvs| => (kvs[i].key, Decode(kvs[i].value)))
  }

  /**
   * What survives the trip through OTLP: tuples read back as lists,
   * dictionary entries holding `None` are gone, and `None` or any other
   * object reads back as its `str()` text.
   */
  function Normalize(v: PyValue): PyValue
    decreases v, 1, 0
  {
    match v
    case PList(items) => PList(NormalizeAll(v, items))
    case PTuple(items) => PList(NormalizeAll(v, items))
    case PDict(entries) => PDict(NormalizeEntries(v, entries))
    case PNone => PStr("None")
    case PObject(_, t, _) => PStr(t)
    case _ => v
  }

  function NormalizeAll(ghost parent: PyValue, items: seq<PyValue>): (r: seq<PyValue>)
    requires forall i :: 0 <= i < |items| ==> items[i] < parent
    ensures |r| == |items|
    decreases parent, 0, 0
  {
    seq(|items|, i requires 0 <= i < |items| => Normalize(items[i]))
  }

  function NormalizeEntries(ghost parent: PyValue, entries: seq<(string, PyValue)>): seq<(string, PyValue)>
    requires forall i :: 0 <= i < |entries| ==> entries[i].1 < parent
    decreases parent, 0, |entries|
  {
    if |entries| == 0 then []
    else
      var last := entries[|entries| - 1];
      NormalizeEntries(parent, entries[..|entries| - 1])
        + (if last.1 == PNone then [] else [(last.0, Normalize(last.1))])
  }

  function KvKeys(kvs: seq<KeyValue>): (ks: seq<string>)
    ensures |ks| == |kvs|
    ensures forall i :: 0 <= i < |kvs| ==> ks[i] == kvs[i].key
  {
    seq(|kvs|, i requires 0 <= i < |kvs| => kvs[i].key)
  }

  /** Every value converts to an OTLP value that decodes to its normal form. */
  lemma {:induction false} DecodeConvert(v: PyValue)
    ensures Decode(ConvertValue(v)) == Normalize(v)
    decreases v, 1, 0
  {
    match v
    case PList(items) =>
      DecodeConvertAll(v, items);
    case PTuple(items) =>
      DecodeConvertAll(v, items);
    case PDict(entries) =>
      DecodeConvertEntries(v, entries);
    case _ =>
  }

  lemma {:induction false} DecodeConvertAll(parent: PyValue, items: seq<PyValue>)
    requires forall i :: 0 <= i < |items| ==> items[i] < parent
    ensures var a := ArrayValue(ConvertAll(parent, items));
            DecodeAll(a, a.values) == NormalizeAll(parent, items)
    decreases parent, 0, 0
  {
    var a := ArrayValue(ConvertAll(parent, items));
    forall i | 0 <= i < |items|
      ensures DecodeAll(a, a.values)[i] == NormalizeAll(parent, items)[i]
    {
      DecodeConvert(items[i]);
    }
  }

  lemma {:induction false} DecodeConvertEntries(parent: PyValue, entries: seq<(string, PyValue)>)
    requires forall i :: 0 <= i < |entries| ==> entries[i].1 < parent
    ensures var a := KvlistValue(ConvertEntries(parent, entries));
            DecodeEntries(a, a.entries) == NormalizeEntries(parent, entries)
    decreases parent, 0, |entries|
  {
    if entries != [] {
      var init := entries[..|entries| - 1];
      var last := entries[|entries| - 1];
      DecodeConvertEntries(parent, init);
      var a0 := KvlistValue(ConvertEntries(parent, init));
      var a := KvlistValue(ConvertEntries(parent, entries));
      var tail := if last.1 == PNone then [] else [KeyValue(last.0, ConvertValue(last.1))];
      assert a.entries == a0.entries + tail;
      if last.1 != PNone {
        DecodeConvert(last.1);
      }
      assert DecodeEntries(a, a.entries) == DecodeEntries(a0, a0.entries) + DecodeEntries(KvlistValue(tail), tail);
    }
  }

  /**
   * The converted attributes read back as the attributes themselves with
   * `None` entries dropped and each value in normal form; their keys are
   * exactly the keys whose value is not `None`, in order.
   */
  lemma {:induction false} ConvertAttributesProperties(attrs: Attrs)
    ensures var kvs := ConvertAttributes(attrs);
            && DecodeEntries(KvlistValue(kvs), kvs) == NormalizeEntries(PDict(attrs), attrs)
            && KvKeys(kvs) == PyAttributes.PresentKeys(attrs)
  {
    DecodeConvertEntries(PDict(attrs), attrs);
    ConvertEntriesKeys(PDict(attrs), attrs);
  }

  lemma {:induction false} ConvertEntriesKeys(parent: PyValue, entries: seq<(string, PyValue)>)
    requires forall i :: 0 <= i < |entries| ==> entries[i].1 < parent
    ensures KvKeys(ConvertEntries(parent, entries)) == PyAttributes.PresentKeys(entries)
    decreases |entries|
  {
    if entries != [] {
      var init := entries[..|entries| - 1];
      var last := entries[|entries| - 1];
      ConvertEntriesKeys(parent, init);
      var tail := if last.1 == PNone then [] else [KeyValue(last.0, ConvertValue(last.1))];
      assert ConvertEntries(parent, entries) == ConvertEntries(parent, init) + tail;
      assert KvKeys(ConvertEntries(parent, init) + tail) == KvKeys(ConvertEntries(parent, init)) + KvKeys(tail);
    }
  }

  /** A value already in normal form is one the conversion loses nothing of. */
  predicate IsNormal(v: PyValue) {
    Normalize(v) == v
  }

  /** Distinct normal values never convert to the same OTLP value. */
  lemma ConvertInjective(u: PyValue, v: PyValue)
    requires IsNormal(u) && IsNormal(v)
    requires ConvertValue(u) == ConvertValue(v)
    ensures u == v
  {
    DecodeConvert(u);
    DecodeConvert(v);
  }

  // ---------------------------------------------------------------------------
  // The resource key: `json.dumps(resource attributes, sort_keys=True)`
  // ---------------------------------------------------------------------------

  /**
   * A JSON document. Objects are maps: with sorted keys the serialised text
   * depends on the members only, not on their insertion order.
   */
  datatype Json =
    | JNull
    | JBool(b: bool)
    | JInt(i: int)
    | JFloat(text: string)
    | JString(s: string)
    | JArray(items: seq<Json>)
    | JObject(members: map<string, Json>)

  /**
   * What `json.dumps` serialises a value as; `None` when it raises
   * `TypeError` because some object inside is not serialisable.
   */
  function ToJson(v: PyValue): Option<Json>
    decreases v, 1
  {
    match v
    case PNone => Some(JNull)
    case PStr(s) => Some(JString(s))
    case PBool(b) => Some(JBool(b))
    case PInt(i) => Some(JInt(i))
    case PFloat(t) => Some(JFloat(t))
    case PList(items) => ToJsonArray(v, items)
    case PTuple(items) => ToJsonArray(v, items)
    case PDict(entries) =>
      if forall i :: 0 <= i < |entries| ==> ToJson(entries[i].1).Some? then
        Some(JObject(OrderedDict.ToMap(
          seq(|entries|, i requires 0 <= i < |entries| => (entries[i].0, ToJson(entries[i].1).value)))))
      else None
    case PObject(_, _, _) => None
  }

  function ToJsonArray(ghost parent: PyValue, items: seq<PyValue>): Option<Json>
    requires forall i :: 0 <= i < |items| ==> items[i] < parent
    decreases parent, 0
  {
    if forall i :: 0 <= i < |items| ==> ToJson(items[i]).Some? then
      Some(JArray(seq(|items|, i requires 0 <= i < |items| => ToJson(items[i]).value)))
    else None
  }

  /**
   * The resource key of a span: its resource attributes serialised with
   * sorted keys, or `None` when serialisation raises.
   */
  function ResourceKey(attrs: Attrs): Option<map<string, Json>> {
    var m := OrderedDict.ToMap(attrs);
    if forall k | k in m :: ToJson(m[k]).Some? then Some(map k | k in m :: ToJson(m[k]).value)
    else None
  }

  predicate IsPrimitive(v: PyValue) {
    v.PNone? || v.PStr? || v.PBool? || v.PInt? || v.PFloat?
  }

  /**
   * The values OpenTelemetry admits as attribute values: a primitive, or a
   * list or tuple of primitives.
   */
  predicate IsAttributeValue(v: PyValue) {
    IsPrimitive(v)
    || ((v.PList? || v.PTuple?) && forall i :: 0 <= i < |v.items| ==> IsPrimitive(v.items[i]))
  }

  /** JSON does not tell a tuple from a list. */
  function ListForm(v: PyValue): PyValue {
    if v.PTuple? then PList(v.items) else v
  }

  predicate AttributeValues(attrs: Attrs) {
    forall i :: 0 <= i < |attrs| ==> IsAttributeValue(attrs[i].1)
  }

  lemma AttributeValueSerializes(v: PyValue)
    requires IsAttributeValue(v)
    ensures ToJson(v).Some?
    ensures !IsPrimitive(v) ==>
              (ToJson(v).value.JArray? && |ToJson(v).value.items| == |v.items|
               && forall i :: 0 <= i < |v.items| ==> ToJson(v).value.items[i] == ToJson(v.items[i]).value)
  {
    if !IsPrimitive(v) {
      forall i | 0 <= i < |v.items|
        ensures ToJson(v.items[i]).Some?
      {
        assert IsPrimitive(v.items[i]);
      }
    }
  }

  /** Two attribute values serialise alike exactly when they agree up to tuple versus list. */
  lemma AttributeValueToJson(u: PyValue, v: PyValue)
    requires IsAttributeValue(u) && IsAttributeValue(v)
    ensures ToJson(u) == ToJson(v) <==> ListForm(u) == ListForm(v)
  {
    AttributeValueSerializes(u);
    AttributeValueSerializes(v);
    if ToJson(u) == ToJson(v) && !IsPrimitive(u) {
      assert !IsPrimitive(v);
      forall i | 0 <= i < |u.items|
        ensures u.items[i] == v.items[i]
      {
        assert IsPrimitive(u.items[i]) && IsPrimitive(v.items[i]);
        assert ToJson(u.items[i]) == ToJson(v.items[i]);
      }
    }
  }

  /** Serialisation never fails on a resource whose values are all attribute values. */
  lemma ResourceKeyDefined(a: Attrs)
    requires AttributeValues(a)
    ensures forall k :: k in OrderedDict.ToMap(a) ==> IsAttributeValue(OrderedDict.ToMap(a)[k])
    ensures ResourceKey(a).Some?
  {
    var m := OrderedDict.ToMap(a);
    forall k | k in m
      ensures IsAttributeValue(m[k]) && ToJson(m[k]).Some?
    {
      OrderedDict.GetIn(a, k);
      AttributeValueSerializes(m[k]);
    }
  }

  /**
   * Two resources get the same key exactly when they hold the same
   * attribute names with values that agree up to tuple versus list,
   * whatever their insertion order.
   */
  lemma ResourceKeyIff(a: Attrs, b: Attrs)
    requires AttributeValues(a) && AttributeValues(b)
    ensures ResourceKey(a).Some?
    ensures var ma, mb := OrderedDict.ToMap(a), OrderedDict.ToMap(b);
            ResourceKey(a) == ResourceKey(b) <==>
              ma.Keys == mb.Keys && forall k :: k in ma ==> ListForm(ma[k]) == ListForm(mb[k])
  {
    var ma, mb := OrderedDict.ToMap(a), OrderedDict.ToMap(b);
    ResourceKeyDefined(a);
    ResourceKeyDefined(b);
    ResourceKeyEqual(a, b);
    if ma.Keys == mb.Keys {
      forall k | k in ma
        ensures ToJson(ma[k]) == ToJson(mb[k]) <==> ListForm(ma[k]) == ListForm(mb[k])
      {
        AttributeValueToJson(ma[k], mb[k]);
      }
    }
  }

  /** A serialisable resource's key has its names, each with its value's JSON. */
  lemma ResourceKeyShape(a: Attrs)
    requires ResourceKey(a).Some?
    ensures var m, j := OrderedDict.ToMap(a), ResourceKey(a).value;
            j.Keys == m.Keys && forall k :: k in m ==> ToJson(m[k]) == Some(j[k])
  {
  }

  /** Two serialisable resources get the same key exactly when their values serialise alike name by name. */
  lemma ResourceKeyEqual(a: Attrs, b: Attrs)
    requires ResourceKey(a).Some? && ResourceKey(b).Some?
    ensures var ma, mb := OrderedDict.ToMap(a), OrderedDict.ToMap(b);
            ResourceKey(a) == ResourceKey(b) <==>
              ma.Keys == mb.Keys && forall k :: k in ma ==> ToJson(ma[k]) == ToJson(mb[k])
  {
    var ma, mb := OrderedDict.ToMap(a), OrderedDict.ToMap(b);
    var ja, jb := ResourceKey(a).value, ResourceKey(b).value;
    ResourceKeyShape(a);
    ResourceKeyShape(b);
    if ma.Keys == mb.Keys && forall k :: k in ma ==> ToJson(ma[k]) == ToJson(mb[k]) {
      SameEntries(ja, jb);
    }
  }

  /** Two maps with the same keys and the same value under each key are equal. */
  lemma SameEntries<K, V>(x: map<K, V>, y: map<K, V>)
    requires x.Keys == y.Keys && forall k :: k in x ==> x[k] == y[k]
    ensures x == y
  {
  }

  /** The resource key does not depend on the order attributes were inserted in. */
  lemma ResourceKeyOrderFree(a: Attrs, b: Attrs)
    requires OrderedDict.ToMap(a) == OrderedDict.ToMap(b)
    ensures ResourceKey(a) == ResourceKey(b)
  {
  }

  // ---------------------------------------------------------------------------
  // Spans
  // ---------------------------------------------------------------------------

  datatype SpanContext = SpanContext(traceId: nat, spanId: nat)
  datatype Event = Event(name: string, timestamp: nat, attributes: Option<Attrs>)
  datatype Link = Link(context: SpanContext, attributes: Option<Attrs>)
  datatype Scope = Scope(name: string, version: Option<string>)

  /** The parts of a finished OpenTelemetry span the exporter reads. */
  datatype ReadableSpan = ReadableSpan(
    context: SpanContext, parent: Option<SpanContext>, name: string, kind: SpanKind,
    startTime: nat, endTime: nat, attributes: Attrs, status: StatusCode,
    description: Option<string>, events: seq<Event>, links: seq<Link>,
    resource: Attrs, scope: Scope)

  datatype OtlpEvent = OtlpEvent(timeUnixNano: string, name: string, attributes: seq<KeyValue>)
  datatype OtlpLink = OtlpLink(traceId: string, spanId: string, attributes: seq<KeyValue>)
  datatype OtlpStatus = OtlpStatus(code: nat, message: Option<string>)
  datatype OtlpSpan = OtlpSpan(
    traceId: string, spanId: string, parentSpanId: Option<string>, name: string, kind: nat,
    startTimeUnixNano: string, endTimeUnixNano: string, attributes: seq<KeyValue>,
    status: OtlpStatus, events: seq<OtlpEvent>, links: seq<OtlpLink>)
  datatype OtlpScope = OtlpScope(name: string, version: Option<string>)
  datatype ScopeSpans = ScopeSpans(scope: OtlpScope, spans: seq<OtlpSpan>)
  datatype ResourceSpans = ResourceSpans(resource: seq<KeyValue>, scopeSpans: seq<ScopeSpans>)

  /** `format(id, '032x')` for trace ids and `format(id, '016x')` for span ids. */
  function TraceIdHex(id: nat): string { Digits.Hex(id, 32) }
  function SpanIdHex(id: nat): string { Digits.Hex(id, 16) }

  /** `str(_time_to_nanos(t))`: timestamps are already nanoseconds. */
  function Nanos(t: nat): string { Digits.Decimal(t) }

  /** `_convert_span`. */
  function ConvertSpan(span: ReadableSpan): OtlpSpan {
    OtlpSpan(
      TraceIdHex(span.context.traceId),
      SpanIdHex(span.context.spanId),
      if span.parent.Some? then Some(SpanIdHex(span.parent.value.spanId)) else None,
      span.name,
      KindValue(span.kind),
      Nanos(span.startTime),
      Nanos(span.endTime),
      ConvertAttributes(span.attributes),
      OtlpStatus(StatusValue(span.status), span.description),
      seq(|span.events|, i requires 0 <= i < |span.events| =>
        var e := span.events[i];
        OtlpEvent(Nanos(e.timestamp), e.name, ConvertAttributes(e.attributes.GetOr([])))),
      seq(|span.links|, i requires 0 <= i < |span.links| =>
        var l := span.links[i];
        OtlpLink(TraceIdHex(l.context.traceId), SpanIdHex(l.context.spanId), ConvertAttributes(l.attributes.GetOr([])))))
  }

  /** Ids within OpenTelemetry's 128-bit trace id and 64-bit span id. */
  predicate IdsFit(c: SpanContext) {
    c.traceId < Digits.Pow(16, 32) && c.spanId < Digits.Pow(16, 16)
  }

  /** `s` is exactly `width` lower-case hex digits spelling `n`. */
  predicate HexOf(s: string, width: nat, n: nat) {
    |s| == width && Digits.AllDigits(s, 16) && Digits.FromDigits(s, 16) == n
  }

  /** `s` is decimal digits spelling `n`. */
  predicate DecimalOf(s: string, n: nat) {
    Digits.AllDigits(s, 10) && Digits.FromDigits(s, 10) == n
  }

  /** `kvs` reads back as `attrs` in normal form, with exactly the keys whose value is not `None`. */
  predicate ReadsBackAs(kvs: seq<KeyValue>, attrs: Attrs) {
    DecodeEntries(KvlistValue(kvs), kvs) == NormalizeEntries(PDict(attrs), attrs)
    && KvKeys(kvs) == PyAttributes.PresentKeys(attrs)
  }

  lemma IdsRoundTrip(c: SpanContext)
    requires IdsFit(c)
    ensures HexOf(TraceIdHex(c.traceId), 32, c.traceId) && HexOf(SpanIdHex(c.spanId), 16, c.spanId)
  {
    Digits.HexRoundTrip(c.traceId, 32);
    Digits.HexRoundTrip(c.spanId, 16);
  }

  /**
   * The OTLP span carries the ids as fixed-width hex that reads back to the
   * same numbers, a parent id exactly when the span has a parent, the times
   * as decimal nanoseconds that read back to the same instants, the kind and
   * status as their OpenTelemetry numbers, and one converted event and link
   * per event and link, in order.
   */
  lemma ConvertSpanProperties(span: ReadableSpan)
    requires IdsFit(span.context)
    requires span.parent.Some? ==> IdsFit(span.parent.value)
    requires forall i :: 0 <= i < |span.links| ==> IdsFit(span.links[i].context)
    ensures var o := ConvertSpan(span);
            && HexOf(o.traceId, 32, span.context.traceId)
            && HexOf(o.spanId, 16, span.context.spanId)
            && (o.parentSpanId.Some? <==> span.parent.Some?)
            && (o.parentSpanId.Some? ==> HexOf(o.parentSpanId.value, 16, span.parent.value.spanId))
    ensures var o := ConvertSpan(span);
            && DecimalOf(o.startTimeUnixNano, span.startTime)
            && DecimalOf(o.endTimeUnixNano, span.endTime)
            && o.name == span.name
            && o.kind == KindValue(span.kind) && o.kind <= 4
            && o.status.code == StatusValue(span.status) && o.status.message == span.description
            && KvKeys(o.attributes) == PyAttributes.PresentKeys(span.attributes)
    ensures var o := ConvertSpan(span);
            && |o.events| == |span.events|
            && (forall i :: 0 <= i < |span.events| ==>
                  o.events[i].name == span.events[i].name
                  && DecimalOf(o.events[i].timeUnixNano, span.events[i].timestamp))
    ensures var o := ConvertSpan(span);
            && |o.links| == |span.links|
            && (forall i :: 0 <= i < |span.links| ==>
                  HexOf(o.links[i].traceId, 32, span.links[i].context.traceId)
                  && HexOf(o.links[i].spanId, 16, span.links[i].context.spanId))
    ensures var o := ConvertSpan(span);
            && ReadsBackAs(o.attributes, span.attributes)
            && (forall i :: 0 <= i < |span.events| ==> ReadsBackAs(o.events[i].attributes, span.events[i].attributes.GetOr([])))
            && (forall i :: 0 <= i < |span.links| ==> ReadsBackAs(o.links[i].attributes, span.links[i].attributes.GetOr([])))
  {
    SpanIds(span);
    SpanAttributes(span);
    SpanFields(span);
    SpanEvents(span);
    SpanLinks(span);
  }

  lemma SpanIds(span: ReadableSpan)
    requires IdsFit(span.context)
    requires span.parent.Some? ==> IdsFit(span.parent.value)
    ensures var o := ConvertSpan(span);
            && HexOf(o.traceId, 32, span.context.traceId)
            && HexOf(o.spanId, 16, span.context.spanId)
            && (o.parentSpanId.Some? <==> span.parent.Some?)
            && (o.parentSpanId.Some? ==> HexOf(o.parentSpanId.value, 16, span.parent.value.spanId))
  {
    IdsRoundTrip(span.context);
    if span.parent.Some? {
      IdsRoundTrip(span.parent.value);
    }
  }

  lemma SpanFields(span: ReadableSpan)
    ensures var o := ConvertSpan(span);
            && DecimalOf(o.startTimeUnixNano, span.startTime)
            && DecimalOf(o.endTimeUnixNano, span.endTime)
            && o.name == span.name
            && o.kind == KindValue(span.kind) && o.kind <= 4
            && o.status.code == StatusValue(span.status) && o.status.message == span.description
            && KvKeys(o.attributes) == PyAttributes.PresentKeys(span.attributes)
  {
    Digits.DecimalRoundTrip(span.startTime);
    Digits.DecimalRoundTrip(span.endTime);
    ConvertEntriesKeys(PDict(span.attributes), span.attributes);
  }

  lemma SpanAttributes(span: ReadableSpan)
    ensures var o := ConvertSpan(span);
            && ReadsBackAs(o.attributes, span.attributes)
            && (forall i :: 0 <= i < |span.events| ==> ReadsBackAs(o.events[i].attributes, span.events[i].attributes.GetOr([])))
            && (forall i :: 0 <= i < |span.links| ==> ReadsBackAs(o.links[i].attributes, span.links[i].attributes.GetOr([])))
  {
    var o := ConvertSpan(span);
    ConvertAttributesProperties(span.attributes);
    forall i | 0 <= i < |span.events|
      ensures ReadsBackAs(o.events[i].attributes, span.events[i].attributes.GetOr([]))
    {
      ConvertAttributesProperties(span.events[i].attributes.GetOr([]));
    }
    forall i | 0 <= i < |span.links|
      ensures ReadsBackAs(o.links[i].attributes, span.links[i].attributes.GetOr([]))
    {
      ConvertAttributesProperties(span.links[i].attributes.GetOr([]));
    }
  }

  lemma SpanEvents(span: ReadableSpan)
    ensures var o := ConvertSpan(span);
            && |o.events| == |span.events|
            && (forall i :: 0 <= i < |span.events| ==>
                  o.events[i].name == span.events[i].name
                  && DecimalOf(o.events[i].timeUnixNano, span.events[i].timestamp))
  {
    var o := ConvertSpan(span);
    forall i | 0 <= i < |span.events|
      ensures DecimalOf(o.events[i].timeUnixNano, span.events[i].timestamp)
    {
      Digits.DecimalRoundTrip(span.events[i].timestamp);
    }
  }

  lemma SpanLinks(span: ReadableSpan)
    requires forall i :: 0 <= i < |span.links| ==> IdsFit(span.links[i].context)
    ensures var o := ConvertSpan(span);
            && |o.links| == |span.links|
            && (forall i :: 0 <= i < |span.links| ==>
                  HexOf(o.links[i].traceId, 32, span.links[i].context.traceId)
                  && HexOf(o.links[i].spanId, 16, span.links[i].context.spanId))
  {
    var o := ConvertSpan(span);
    forall i | 0 <= i < |span.links|
      ensures HexOf(o.links[i].traceId, 32, span.links[i].context.traceId)
      ensures HexOf(o.links[i].spanId, 16, span.links[i].context.spanId)
    {
      IdsRoundTrip(span.links[i].context);
    }
  }

  // ---------------------------------------------------------------------------
  // The scope key: "name:version"
  // ---------------------------------------------------------------------------

  function ScopeKey(scope: Scope): string {
    scope.name + ":" + scope.version.GetOr("")
  }

  /**
   * Splitting a scope key back at its first colon; an empty version reads
   * back as no version. Every key built by `ScopeKey` has a colon, so the
   * branch without one is never taken.
   */
  function ScopeOf(key: string): OtlpScope {
    var parts := Text.SplitOnce(key, ':');
    if |parts| == 2 then OtlpScope(parts[0], if parts[1] == "" then None else Some(parts[1]))
    else OtlpScope(key, None)
  }

  /**
   * A scope whose name has no colon reads back from its key intact, except
   * that an empty version becomes no version.
   */
  lemma ScopeRoundTrip(scope: Scope)
    requires ':' !in scope.name
    ensures ScopeOf(ScopeKey(scope)) ==
            OtlpScope(scope.name, if scope.version == Some("") then None else scope.version)
  {
    var key := ScopeKey(scope);
    var parts := Text.SplitOnce(key, ':');
    assert key[|scope.name|] == ':';
    assert |parts| == 2;
    assert key == parts[0] + [':'] + parts[1];
    assert scope.name == key[..|scope.name|];
    assert parts[1] == scope.version.GetOr("");
  }

  /** A colon in a scope name makes two different scopes share one key. */
  lemma ScopeKeyCollision()
    ensures var s1, s2 := Scope("a:b", Some("c")), Scope("a", Some("b:c"));
            s1 != s2 && ScopeKey(s1) == ScopeKey(s2) && ScopeOf(ScopeKey(s1)) == OtlpScope("a", Some("b:c"))
  {
    var key := ScopeKey(Scope("a", Some("b:c")));
    assert key == "a:b:c";
    assert Text.SplitOnce(key, ':')[0] == "a" by {
      var parts := Text.SplitOnce(key, ':');
      assert key == parts[0] + [':'] + parts[1];
      assert ':' !in parts[0];
    }
  }

  // ---------------------------------------------------------------------------
  // The payload: spans grouped by resource, then by scope
  // ---------------------------------------------------------------------------

  type ResourceKeyValue = map<string, Json>

  /**
   * Each span with its resource key and scope key, in input order; `None`
   * when some span's resource cannot be serialised.
   */
  function KeySpans(spans: seq<ReadableSpan>): (r: Option<seq<(ResourceKeyValue, string, ReadableSpan)>>)
    ensures r.Some? <==> forall i :: 0 <= i < |spans| ==> ResourceKey(spans[i].resource).Some?
    ensures r.Some? ==> Grouping.Thirds(r.value) == spans
    ensures r.Some? ==> forall i :: 0 <= i < |spans| ==>
              r.value[i].0 == ResourceKey(spans[i].resource).value && r.value[i].1 == ScopeKey(spans[i].scope)
  {
    if forall i :: 0 <= i < |spans| ==> ResourceKey(spans[i].resource).Some? then
      Some(seq(|spans|, i requires 0 <= i < |spans| =>
        (ResourceKey(spans[i].resource).value, ScopeKey(spans[i].scope), spans[i])))
    else None
  }

  function ConvertSpans(spans: seq<ReadableSpan>): (r: seq<OtlpSpan>)
    ensures |r| == |spans|
  {
    seq(|spans|, i requires 0 <= i < |spans| => ConvertSpan(spans[i]))
  }

  /**
   * One resource entry per resource group, its attributes taken from the
   * group's first span, and one scope entry per scope group inside it.
   */
  function Render(gs: seq<(ResourceKeyValue, seq<(string, seq<ReadableSpan>)>)>): (r: seq<ResourceSpans>)
    requires Grouping.Filled2(gs)
    ensures |r| == |gs|
  {
    seq(|gs|, i requires 0 <= i < |gs| =>
      ResourceSpans(
        ConvertAttributes(gs[i].1[0].1[0].resource),
        seq(|gs[i].1|, j requires 0 <= j < |gs[i].1| =>
          ScopeSpans(ScopeOf(gs[i].1[j].0), ConvertSpans(gs[i].1[j].1)))))
  }

  /** `_convert_spans_to_payload`; `None` when it raises. */
  function ConvertSpansToPayload(spans: seq<ReadableSpan>): Option<seq<ResourceSpans>> {
    match KeySpans(spans)
    case None => None
    case Some(keyed) =>
      Grouping.GroupBy2Filled(keyed);
      Some(Render(Grouping.GroupBy2(keyed)))
  }

  /**
   * The payload has one resource entry per distinct resource key, in order
   * of first appearance, and every span lands in exactly one scope entry.
   * Inside the entry for resource key `r`, the resource attributes are
   * those of the first span with key `r`, the scope entries follow the
   * order in which their scope keys first appear among the spans with key
   * `r`, and each scope entry holds exactly the spans with both keys, in
   * input order.
   */
  lemma PayloadProperties(spans: seq<ReadableSpan>)
    requires KeySpans(spans).Some?
    ensures var keyed := KeySpans(spans).value;
            var gs := Grouping.GroupBy2(keyed);
            && ConvertSpansToPayload(spans).Some?
            && |ConvertSpansToPayload(spans).value| == |gs|
            && Grouping.KeysOf(gs) == Grouping.FirstSeen(Grouping.OuterKeys(keyed))
            && multiset(Grouping.Flatten2(gs)) == multiset(spans)
    ensures var keyed := KeySpans(spans).value;
            var gs := Grouping.GroupBy2(keyed);
            forall i :: 0 <= i < |gs| ==> PayloadEntry(keyed, gs, ConvertSpansToPayload(spans).value, i)
  {
    var keyed := KeySpans(spans).value;
    var gs := Grouping.GroupBy2(keyed);
    Grouping.GroupBy2Filled(keyed);
    var p := Render(gs);
    assert ConvertSpansToPayload(spans) == Some(p);
    Grouping.GroupBy2Keys(keyed);
    Grouping.GroupBy2Partition(keyed);
    forall i | 0 <= i < |gs|
      ensures PayloadEntry(keyed, gs, p, i)
    {
      PayloadGroup(keyed, i);
    }
  }

  /** The entry for the `i`th resource group, as `PayloadProperties` describes it. */
  predicate PayloadEntry(keyed: seq<(ResourceKeyValue, string, ReadableSpan)>,
                         gs: seq<(ResourceKeyValue, seq<(string, seq<ReadableSpan>)>)>,
                         p: seq<ResourceSpans>, i: nat)
    requires i < |gs| == |p|
  {
    var inner := Grouping.Inner(keyed, gs[i].0);
    && inner != []
    && p[i].resource == ConvertAttributes(inner[0].1.resource)
    && Grouping.KeysOf(gs[i].1) == Grouping.FirstSeen(Grouping.KeysOf(inner))
    && |p[i].scopeSpans| == |gs[i].1|
    && forall j :: 0 <= j < |gs[i].1| ==>
         && gs[i].1[j].1 == Grouping.Select(inner, gs[i].1[j].0)
         && p[i].scopeSpans[j] == ScopeSpans(ScopeOf(gs[i].1[j].0), ConvertSpans(gs[i].1[j].1))
  }

  lemma PayloadGroup(keyed: seq<(ResourceKeyValue, string, ReadableSpan)>, i: nat)
    requires i < |Grouping.GroupBy2(keyed)|
    ensures Grouping.Filled2(Grouping.GroupBy2(keyed))
    ensures PayloadEntry(keyed, Grouping.GroupBy2(keyed), Render(Grouping.GroupBy2(keyed)), i)
  {
    var gs := Grouping.GroupBy2(keyed);
    Grouping.GroupBy2Filled(keyed);
    var p := Render(gs);
    var inner := Grouping.Inner(keyed, gs[i].0);
    Grouping.GroupBy2At(keyed, i);
    assert gs[i].1 == Grouping.GroupBy(inner);
    assert inner != [];
    Grouping.GroupByHead(inner);
    Grouping.GroupByKeys(inner);
    Grouping.GroupByMembers(inner);
  }

  // ---------------------------------------------------------------------------
  // Export
  // ---------------------------------------------------------------------------

  datatype Request = Request(url: string, headers: OrderedDict.Dict<string>, body: seq<ResourceSpans>, timeoutSeconds: real)
  datatype Response = Response(statusCode: int, text: string)
  datatype ExportResult = ExportSuccess | ExportFailure

  const IngestPath := "/api/v1/traces/ingest"

  /** The request headers: the bearer token and JSON content type, overridable by the configured headers. */
  function ExportHeaders(apiKey: string, headers: OrderedDict.Dict<string>): OrderedDict.Dict<string> {
    OrderedDict.Update([("Authorization", "Bearer " + apiKey), ("Content-Type", "application/json")], headers)
  }

  function MakeRequest(config: PyTypes.Config, body: seq<ResourceSpans>): Request {
    Request(config.baseUrl + IngestPath, ExportHeaders(config.apiKey, config.headers), body, 30.0)
  }

  /**
   * `export`: an empty batch succeeds without a request. Otherwise the
   * batch succeeds exactly when the payload could be built, the request
   * went through, and the response status is 2xx; every other path,
   * raised exceptions included, is a failure. `post` stands for the HTTP
   * client.
   */
  function Export(config: PyTypes.Config, spans: seq<ReadableSpan>, post: Request -> Result<Response, PyException>): (r: ExportResult)
    ensures spans == [] ==> r == ExportSuccess
    ensures spans != [] && ConvertSpansToPayload(spans).None? ==> r == ExportFailure
    ensures spans != [] && ConvertSpansToPayload(spans).Some? ==>
              var response := post(MakeRequest(config, ConvertSpansToPayload(spans).value));
              (r == ExportSuccess <==> response.Ok? && 200 <= response.value.statusCode < 300)
  {
    if |spans| == 0 then ExportSuccess
    else
      match ConvertSpansToPayload(spans)
      case None => ExportFailure
      case Some(body) =>
        match post(MakeRequest(config, body))
        case Err(_) => ExportFailure
        case Ok(response) => if 200 <= response.statusCode <= 299 then ExportSuccess else ExportFailure
  }

  /**
   * The headers name the two defaults first, keep keys unique, and let a
   * configured header replace a default of the same name.
   */
  lemma ExportHeadersProperties(apiKey: string, headers: OrderedDict.Dict<string>)
    ensures var h := ExportHeaders(apiKey, headers);
            && OrderedDict.UniqueKeys(h)
            && |h| >= 2 && OrderedDict.Keys(h)[..2] == ["Authorization", "Content-Type"]
            && OrderedDict.Get(h, "Authorization") ==
                 (if "Authorization" in OrderedDict.Keys(headers) then OrderedDict.Get(headers, "Authorization")
                  else Some("Bearer " + apiKey))
            && OrderedDict.Get(h, "Content-Type") ==
                 (if "Content-Type" in OrderedDict.Keys(headers) then OrderedDict.Get(headers, "Content-Type")
                  else Some("application/json"))
            && forall k :: k != "Authorization" && k != "Content-Type" ==>
                 OrderedDict.Get(h, k) == OrderedDict.Get(headers, k)
  {
    var base := [("Authorization", "Bearer " + apiKey), ("Content-Type", "application/json")];
    OrderedDict.UpdateProperties(base, headers);
    assert OrderedDict.Keys(base) == ["Authorization", "Content-Type"];
    assert base[..1] == [("Authorization", "Bearer " + apiKey)];
    assert OrderedDict.Get(base, "Authorization") == Some("Bearer " + apiKey);
    forall k | k != "Authorization" && k != "Content-Type"
      ensures OrderedDict.Get(ExportHeaders(apiKey, headers), k) == OrderedDict.Get(headers, k)
    {
      OrderedDict.GetDefined(headers, k);
      OrderedDict.GetDefined(base, k);
    }
  }

  /**
   * A non-empty batch that exports successfully was grouped into a payload
   * that keeps every span, and that payload went in a 2xx POST to the
   * ingest path of the base URL, with the bearer token and JSON content
   * type unless the configured headers replace them, and a 30 second
   * timeout.
   */
  lemma ExportSuccessSent(config: PyTypes.Config, spans: seq<ReadableSpan>, post: Request -> Result<Response, PyException>)
    ensures Export(config, spans, post) == ExportSuccess && spans != [] ==>
              && KeySpans(spans).Some? && ConvertSpansToPayload(spans).Some?
              && var keyed := KeySpans(spans).value;
                 var req := MakeRequest(config, ConvertSpansToPayload(spans).value);
                 && post(req).Ok? && 200 <= post(req).value.statusCode < 300
                 && req.url == config.baseUrl + "/api/v1/traces/ingest" && req.timeoutSeconds == 30.0
                 && |req.body| == |Grouping.FirstSeen(Grouping.OuterKeys(keyed))|
                 && multiset(Grouping.Flatten2(Grouping.GroupBy2(keyed))) == multiset(spans)
                 && OrderedDict.Get(req.headers, "Authorization") ==
                      (if "Authorization" in OrderedDict.Keys(config.headers) then OrderedDict.Get(config.headers, "Authorization")
                       else Some("Bearer " + config.apiKey))
                 && OrderedDict.Get(req.headers, "Content-Type") ==
                      (if "Content-Type" in OrderedDict.Keys(config.headers) then OrderedDict.Get(config.headers, "Content-Type")
                       else Some("application/json"))
  {
    if Export(config, spans, post) == ExportSuccess && spans != [] {
      assert KeySpans(spans).Some?;
      PayloadProperties(spans);
      ExportHeadersProperties(config.apiKey, config.headers);
    }
  }

  /** `force_flush`: nothing is buffered, so flushing always reports success. */
  function ForceFlush(timeoutMillis: Option<int>): (flushed: bool)
    ensures flushed
  {
    true
  }
}
