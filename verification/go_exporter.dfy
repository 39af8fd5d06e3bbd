/**
 * The Go SDK's HTTP exporter (`exporter.go`): the JSON payload built from
 * finished spans, the request sent to the traces endpoint, how the
 * response becomes an error, and the resource attributes of the SDK's
 * tracer provider. The HTTP round trip itself is an input: either the
 * transport error `Do` returns or the response's status and body.
 */
module GoExporter {
  import opened Wrappers
  import opened GoValues
  import opened GoErrors
  import Text
  import Digits
  import GoConfig

  /** A finished span, as the exporter reads it; ids are the integers their hex strings spell. */
  datatype ReadOnlySpan = ReadOnlySpan(
    traceId: nat, spanId: nat, name: string, startNs: int, endNs: int,
    attributes: seq<KeyValue>, statusCode: nat, statusDescription: string, parentSpanId: nat)

  /** A value of the payload's per-span JSON object. */
  datatype Field =
    | FText(s: string)
    | FInt(i: int)
    | FAttributes(kvs: seq<KeyValue>)
    | FStatus(code: nat, description: string)

  type Entry = map<string, Field>

  /** `SpanID.IsValid()`: not all zero. */
  predicate SpanIdValid(id: nat) { id != 0 }

  /** `TraceID.String()` and `SpanID.String()`: 32 and 16 lower-case hex digits. */
  function TraceIdText(id: nat): string { Digits.Hex(id, 32) }
  function SpanIdText(id: nat): string { Digits.Hex(id, 16) }

  /** The keys every converted span has. */
  const BaseKeys: set<string> := {"trace_id", "span_id", "name", "start_time", "end_time", "attributes", "status"}

  /** One span's object in `convertSpansToPayload`. */
  function ConvertSpan(s: ReadOnlySpan): Entry {
    var base := map["trace_id" := FText(TraceIdText(s.traceId)), "span_id" := FText(SpanIdText(s.spanId)),
                    "name" := FText(s.name), "start_time" := FInt(s.startNs), "end_time" := FInt(s.endNs),
                    "attributes" := FAttributes(s.attributes), "status" := FStatus(s.statusCode, s.statusDescription)];
    if SpanIdValid(s.parentSpanId) then base["parent_span_id" := FText(SpanIdText(s.parentSpanId))] else base
  }

  /** `convertSpansToPayload(spans)`: the list under the payload's "spans" key. */
  function ConvertSpansToPayload(spans: seq<ReadOnlySpan>): seq<Entry> {
    seq(|spans|, i requires 0 <= i < |spans| => ConvertSpan(spans[i]))
  }

  /**
   * One object per span, in the spans' order, each with the span's ids,
   * name, times, attributes and status, and with `parent_span_id` exactly
   * when the parent span id is valid.
   */
  lemma ConvertSpansToPayloadProperties(spans: seq<ReadOnlySpan>)
    ensures var entries := ConvertSpansToPayload(spans);
            && |entries| == |spans|
            && forall i :: 0 <= i < |spans| ==>
                 && entries[i].Keys == BaseKeys + (if SpanIdValid(spans[i].parentSpanId) then {"parent_span_id"} else {})
                 && entries[i]["trace_id"] == FText(TraceIdText(spans[i].traceId))
                 && entries[i]["span_id"] == FText(SpanIdText(spans[i].spanId))
                 && entries[i]["name"] == FText(spans[i].name)
                 && entries[i]["start_time"] == FInt(spans[i].startNs) && entries[i]["end_time"] == FInt(spans[i].endNs)
                 && entries[i]["attributes"] == FAttributes(spans[i].attributes)
                 && entries[i]["status"] == FStatus(spans[i].statusCode, spans[i].statusDescription)
                 && (SpanIdValid(spans[i].parentSpanId) ==>
                       entries[i]["parent_span_id"] == FText(SpanIdText(spans[i].parentSpanId)))
  {
  }

  /** The trace and span ids in the payload read back as the span's ids. */
  lemma PayloadIdsRoundTrip(s: ReadOnlySpan)
    requires s.traceId < Digits.Pow(16, 32) && s.spanId < Digits.Pow(16, 16) && s.parentSpanId < Digits.Pow(16, 16)
    ensures |TraceIdText(s.traceId)| == 32 && Digits.FromDigits(TraceIdText(s.traceId), 16) == s.traceId
    ensures |SpanIdText(s.spanId)| == 16 && Digits.FromDigits(SpanIdText(s.spanId), 16) == s.spanId
    ensures SpanIdValid(s.parentSpanId) ==> Digits.FromDigits(SpanIdText(s.parentSpanId), 16) == s.parentSpanId
  {
    Digits.HexRoundTrip(s.traceId, 32);
    Digits.HexRoundTrip(s.spanId, 16);
    Digits.HexRoundTrip(s.parentSpanId, 16);
  }

  // ----- Headers -----

  function UpperChar(c: char): char {
    if 'a' <= c <= 'z' then (c as int - 32) as char else c
  }

  /** The bytes `textproto` accepts in a header name. */
  predicate TokenChar(c: char) {
    ('a' <= c <= 'z') || ('A' <= c <= 'Z') || ('0' <= c <= '9') || c in "!#$%&'*+-.^_`|~"
  }

  /** Upper-case the first letter and every letter after a hyphen, lower-case the rest. */
  function CanonicalCase(s: string, upper: bool): (r: string)
    ensures |r| == |s|
    decreases |s|
  {
    if |s| == 0 then []
    else [if upper then UpperChar(s[0]) else Text.LowerChar(s[0])] + CanonicalCase(s[1..], s[0] == '-')
  }

  /** `http.CanonicalHeaderKey(k)`, which `Header.Set` applies: a name with an invalid byte is left alone. */
  function CanonicalHeaderKey(k: string): string {
    if forall i :: 0 <= i < |k| ==> TokenChar(k[i]) then CanonicalCase(k, true) else k
  }

  lemma {:induction false} CanonicalCaseIdempotent(s: string, upper: bool)
    ensures CanonicalCase(CanonicalCase(s, upper), upper) == CanonicalCase(s, upper)
    decreases |s|
  {
    if s != [] {
      var r := CanonicalCase(s, upper);
      assert r[0] == '-' <==> s[0] == '-';
      assert r[1..] == CanonicalCase(s[1..], s[0] == '-');
      CanonicalCaseIdempotent(s[1..], s[0] == '-');
    }
  }

  /** Canonicalizing a canonical name changes nothing. */
  lemma CanonicalHeaderKeyIdempotent(k: string)
    ensures CanonicalHeaderKey(CanonicalHeaderKey(k)) == CanonicalHeaderKey(k)
  {
    if forall i :: 0 <= i < |k| ==> TokenChar(k[i]) {
      CanonicalCaseIdempotent(k, true);
      CanonicalCaseTokens(k, true);
    }
  }

  lemma {:induction false} CanonicalCaseTokens(s: string, upper: bool)
    requires forall i :: 0 <= i < |s| ==> TokenChar(s[i])
    ensures forall i :: 0 <= i < |s| ==> TokenChar(CanonicalCase(s, upper)[i])
    decreases |s|
  {
    if s != [] {
      CanonicalCaseTokens(s[1..], s[0] == '-');
      var r := CanonicalCase(s, upper);
      CaseCharToken(s[0], upper);
      assert r[0] == if upper then UpperChar(s[0]) else Text.LowerChar(s[0]);
      forall i | 1 <= i < |s| ensures TokenChar(r[i]) {
        assert r[i] == CanonicalCase(s[1..], s[0] == '-')[i - 1];
      }
    }
  }

  /** Changing the case of a token character leaves a token character. */
  lemma CaseCharToken(c: char, upper: bool)
    requires TokenChar(c)
    ensures TokenChar(if upper then UpperChar(c) else Text.LowerChar(c))
  {
  }

  /** `req.Header` after the `Header.Set` calls of `pairs`, in order. */
  function SetAll(h: map<string, string>, pairs: seq<(string, string)>): map<string, string>
    decreases |pairs|
  {
    if |pairs| == 0 then h
    else SetAll(h[CanonicalHeaderKey(pairs[0].0) := pairs[0].1], pairs[1..])
  }

  /** The last pair setting header `n`, when one does. */
  function LastSetting(pairs: seq<(string, string)>, n: string): (i: int)
    ensures -1 <= i < |pairs|
    ensures i >= 0 ==> CanonicalHeaderKey(pairs[i].0) == n
    ensures forall j :: i < j < |pairs| ==> CanonicalHeaderKey(pairs[j].0) != n
    decreases |pairs|
  {
    if |pairs| == 0 then -1
    else if CanonicalHeaderKey(pairs[|pairs| - 1].0) == n then |pairs| - 1
    else LastSetting(pairs[..|pairs| - 1], n)
  }

  /** A header holds the value of the last `Set` of its canonical name, or what it held before. */
  lemma {:induction false} SetAllLastWins(h: map<string, string>, pairs: seq<(string, string)>, n: string)
    ensures var r := SetAll(h, pairs);
            var i := LastSetting(pairs, n);
            && (i >= 0 ==> n in r && r[n] == pairs[i].1)
            && (i < 0 ==> (n in r <==> n in h) && (n in h ==> r[n] == h[n]))
    decreases |pairs|
  {
    if pairs != [] {
      var h1 := h[CanonicalHeaderKey(pairs[0].0) := pairs[0].1];
      SetAllLastWins(h1, pairs[1..], n);
      LastSettingTail(pairs, n);
    }
  }

  lemma {:induction false} LastSettingTail(pairs: seq<(string, string)>, n: string)
    requires pairs != []
    ensures var i := LastSetting(pairs[1..], n);
            LastSetting(pairs, n) == (if i >= 0 then i + 1 else if CanonicalHeaderKey(pairs[0].0) == n then 0 else -1)
    decreases |pairs|
  {
    if |pairs| > 1 && CanonicalHeaderKey(pairs[|pairs| - 1].0) != n {
      assert pairs[1..][..|pairs[1..]| - 1] == pairs[..|pairs| - 1][1..];
      LastSettingTail(pairs[..|pairs| - 1], n);
    }
  }

  const ContentTypeHeader := "Content-Type"
  const AuthorizationHeader := "Authorization"
  const UserAgentHeader := "User-Agent"

  /** The three headers every request gets first. */
  function DefaultHeaders(apiKey: string): seq<(string, string)> {
    [(ContentTypeHeader, "application/json"), (AuthorizationHeader, "Bearer " + apiKey),
     (UserAgentHeader, "untrace-sdk-go/0.1.0")]
  }

  /** The custom headers as the loop over `config.Headers` visits them. */
  function CustomPairs(headers: map<string, string>, order: seq<string>): seq<(string, string)>
    requires Enumerates(order, headers.Keys)
  {
    seq(|order|, i requires 0 <= i < |order| => (order[i], headers[order[i]]))
  }

  /** An HTTP request as `sendToAPI` builds it. */
  datatype Request = Request(verb: string, url: string, headers: map<string, string>, spans: seq<Entry>)

  /**
   * How the round trip ends: `http.NewRequestWithContext` refusing the
   * URL or context, `httpClient.Do` failing, or a response.
   */
  datatype HttpOutcome = RequestFailure(err: GoError) | TransportFailure(err: GoError) | Response(status: int, body: string)

  /** `NewUntraceExporter(config)`'s endpoint. */
  function Endpoint(c: GoConfig.Config): string {
    c.baseUrl + "/v1/traces"
  }

  /** The request `sendToAPI` sends, the custom headers visited in `order`. */
  function BuildRequest(c: GoConfig.Config, entries: seq<Entry>, order: seq<string>): Request
    requires Enumerates(order, c.headers.Keys)
  {
    Request("POST", Endpoint(c), SetAll(map[], DefaultHeaders(c.apiKey) + CustomPairs(c.headers, order)), entries)
  }

  /** How `sendToAPI` turns the round trip into its result. */
  function ResponseError(outcome: HttpOutcome): Option<GoError> {
    match outcome
    case RequestFailure(err) => Some(Wrapped("failed to create request", err))
    case TransportFailure(err) => Some(Untrace(Api(0, ""), "failed to send request to Untrace API", Some(err)))
    case Response(status, body) =>
      if status >= 400 then
        Some(NewAPIError("API request failed with status " + Digits.Decimal(status), status, body, None))
      else None
  }

  /**
   * A status of 400 or more is an API error carrying that status and the
   * body; any lower status is success; a transport failure is an API
   * error wrapping it; a request that cannot be built is reported as
   * "failed to create request" wrapping the cause.
   */
  lemma ResponseErrorProperties(outcome: HttpOutcome)
    ensures outcome.Response? ==> (ResponseError(outcome).Some? <==> outcome.status >= 400)
    ensures outcome.Response? && outcome.status >= 400 ==>
              ResponseError(outcome).value.Untrace?
              && ResponseError(outcome).value.kind == Api(outcome.status, outcome.body)
              && Unwrap(ResponseError(outcome).value) == None
    ensures outcome.TransportFailure? ==>
              ResponseError(outcome).Some? && Unwrap(ResponseError(outcome).value) == Some(outcome.err)
              && ResponseError(outcome).value.Untrace? && ResponseError(outcome).value.kind.Api?
    ensures outcome.RequestFailure? ==>
              ResponseError(outcome).Some? && Unwrap(ResponseError(outcome).value) == Some(outcome.err)
              && ErrorText(ResponseError(outcome).value) == "failed to create request: " + ErrorText(outcome.err)
  {
  }

  /**
   * `ExportSpans(ctx, spans)`: the request sent, if any, and the error
   * returned. The round trip's result is `outcome`.
   */
  function ExportSpans(c: GoConfig.Config, spans: seq<ReadOnlySpan>, order: seq<string>, outcome: HttpOutcome)
    : (Option<Request>, Option<GoError>)
    requires Enumerates(order, c.headers.Keys)
  {
    if |spans| == 0 then (None, None)
    else if outcome.RequestFailure? then (None, ResponseError(outcome))
    else (Some(BuildRequest(c, ConvertSpansToPayload(spans), order)), ResponseError(outcome))
  }

  /**
   * No spans, no request and no error. Otherwise, unless the request
   * cannot be built, one POST to the base URL followed by "/v1/traces",
   * carrying the converted spans; the error is the one the round trip
   * calls for.
   */
  lemma ExportSpansProperties(c: GoConfig.Config, spans: seq<ReadOnlySpan>, order: seq<string>, outcome: HttpOutcome)
    requires Enumerates(order, c.headers.Keys)
    ensures spans == [] ==> ExportSpans(c, spans, order, outcome) == (None, None)
    ensures spans != [] ==>
              var (req, err) := ExportSpans(c, spans, order, outcome);
              && (req.Some? <==> !outcome.RequestFailure?)
              && (req.Some? ==> && req.value.verb == "POST" && req.value.url == c.baseUrl + "/v1/traces"
                                && req.value.spans == ConvertSpansToPayload(spans))
              && err == ResponseError(outcome) && (err.None? <==> outcome.Response? && outcome.status < 400)
  {
  }

  /**
   * A custom header overrides the default of the same canonical name and
   * is sent under its canonical name; a default no custom header names is
   * sent as it is. When two custom names canonicalize alike, the one the
   * loop visits last wins.
   */
  lemma RequestHeaders(c: GoConfig.Config, entries: seq<Entry>, order: seq<string>, n: string)
    requires Enumerates(order, c.headers.Keys)
    ensures var headers := BuildRequest(c, entries, order).headers;
            var custom := CustomPairs(c.headers, order);
            var i := LastSetting(custom, n);
            && (i >= 0 ==> n in headers && headers[n] == c.headers[order[i]])
            && (i < 0 && n == AuthorizationHeader ==> n in headers && headers[n] == "Bearer " + c.apiKey)
            && (i < 0 && n == ContentTypeHeader ==> n in headers && headers[n] == "application/json")
            && (i < 0 && n == UserAgentHeader ==> n in headers && headers[n] == "untrace-sdk-go/0.1.0")
            && (n in headers <==> i >= 0 || n in {ContentTypeHeader, AuthorizationHeader, UserAgentHeader})
  {
    var custom := CustomPairs(c.headers, order);
    SetAllAppend(map[], DefaultHeaders(c.apiKey), custom);
    DefaultsMap(c.apiKey);
    SetAllLastWins(SetAll(map[], DefaultHeaders(c.apiKey)), custom, n);
  }

  lemma {:induction false} SetAllAppend(h: map<string, string>, a: seq<(string, string)>, b: seq<(string, string)>)
    ensures SetAll(h, a + b) == SetAll(SetAll(h, a), b)
    decreases |a|
  {
    if a == [] {
      assert a + b == b;
    } else {
      assert (a + b)[1..] == a[1..] + b;
      SetAllAppend(h[CanonicalHeaderKey(a[0].0) := a[0].1], a[1..], b);
    }
  }

  /** The headers after the three defaults alone. */
  lemma DefaultsMap(apiKey: string)
    ensures SetAll(map[], DefaultHeaders(apiKey))
         == map[ContentTypeHeader := "application/json", AuthorizationHeader := "Bearer " + apiKey,
                UserAgentHeader := "untrace-sdk-go/0.1.0"]
  {
    var d := DefaultHeaders(apiKey);
    AuthorizationCanonical();
    ContentTypeCanonical();
    UserAgentCanonical();
    var m1 := map[][ContentTypeHeader := "application/json"];
    var m2 := m1[AuthorizationHeader := "Bearer " + apiKey];
    var m3 := m2[UserAgentHeader := "untrace-sdk-go/0.1.0"];
    assert SetAll(map[], d) == SetAll(m1, d[1..]);
    assert SetAll(m1, d[1..]) == SetAll(m2, d[2..]);
    assert SetAll(m2, d[2..]) == SetAll(m3, d[3..]);
  }

  /** Position `i` begins a word: the first position when `upper`, else one after a hyphen. */
  predicate StartsWord(s: string, upper: bool, i: int)
    requires 0 <= i < |s|
  {
    if i == 0 then upper else s[i - 1] == '-'
  }

  /** `s` is already in canonical case: no lower-case letter starts a word, no upper-case letter continues one. */
  predicate InCanonicalCase(s: string, upper: bool) {
    forall i :: 0 <= i < |s| ==> if StartsWord(s, upper, i) then !('a' <= s[i] <= 'z') else !('A' <= s[i] <= 'Z')
  }

  lemma {:induction false} CanonicalCaseFixed(s: string, upper: bool)
    requires InCanonicalCase(s, upper)
    ensures CanonicalCase(s, upper) == s
    decreases |s|
  {
    if s != [] {
      assert StartsWord(s, upper, 0) == upper;
      CanonicalCaseFixed(s[1..], s[0] == '-');
    }
  }

  /** A token name already in canonical case is its own canonical form. */
  lemma CanonicalHeaderKeyFixed(k: string)
    requires forall i :: 0 <= i < |k| ==> TokenChar(k[i])
    requires InCanonicalCase(k, true)
    ensures CanonicalHeaderKey(k) == k
  {
    CanonicalCaseFixed(k, true);
  }

  lemma ContentTypeCanonical()
    ensures CanonicalHeaderKey(ContentTypeHeader) == ContentTypeHeader
  {
    CanonicalHeaderKeyFixed(ContentTypeHeader);
  }

  lemma AuthorizationCanonical()
    ensures CanonicalHeaderKey(AuthorizationHeader) == AuthorizationHeader
  {
    CanonicalHeaderKeyFixed(AuthorizationHeader);
  }

  lemma UserAgentCanonical()
    ensures CanonicalHeaderKey(UserAgentHeader) == UserAgentHeader
  {
    CanonicalHeaderKeyFixed(UserAgentHeader);
  }

  // ----- Resource -----

  /** The type checks of `CreateResource`'s loop: only strings, ints, float64s and bools are kept. */
  function ResourceValue(v: GoValue): Option<AttrValue> {
    match v
    case GString(s) => Some(AString(s))
    case GInt(i) => Some(AInt64(i))
    case GFloat64(f) => Some(AFloat64(f))
    case GBool(b) => Some(ABool(b))
    case _ => None
  }

  function ResourceExtras(attrs: GoMap, order: seq<string>): seq<KeyValue>
    requires forall i :: 0 <= i < |order| ==> order[i] in attrs
    decreases |order|
  {
    if |order| == 0 then []
    else
      var v := ResourceValue(attrs[order[0]]);
      (if v.Some? then [KeyValue(order[0], v.value)] else []) + ResourceExtras(attrs, order[1..])
  }

  /** `CreateResource(config)`'s attributes, the resource attributes visited in `order`. */
  function CreateResource(c: GoConfig.Config, order: seq<string>): seq<KeyValue>
    requires Enumerates(order, c.resourceAttributes.Keys)
  {
    [KeyValue("service.name", AString(c.serviceName)), KeyValue("service.version", AString(c.version)),
     KeyValue("deployment.environment", AString(c.environment))]
      + ResourceExtras(c.resourceAttributes, order)
  }

  lemma {:induction false} ResourceExtrasMembers(attrs: GoMap, order: seq<string>)
    requires forall i :: 0 <= i < |order| ==> order[i] in attrs
    ensures forall kv :: kv in ResourceExtras(attrs, order) <==>
              kv.key in order && ResourceValue(attrs[kv.key]) == Some(kv.value)
    decreases |order|
  {
    if order != [] {
      ResourceExtrasMembers(attrs, order[1..]);
      assert forall k :: k in order <==> k == order[0] || k in order[1..];
    }
  }

  /**
   * The resource starts with service name, version and environment; after
   * them comes one attribute per string, int, float64 or bool resource
   * attribute, typed, and nothing for any other value.
   */
  lemma CreateResourceProperties(c: GoConfig.Config, order: seq<string>)
    requires Enumerates(order, c.resourceAttributes.Keys)
    ensures var kvs := CreateResource(c, order);
            && Keys(kvs[..3]) == ["service.name", "service.version", "deployment.environment"]
            && kvs[0].value == AString(c.serviceName) && kvs[1].value == AString(c.version)
            && kvs[2].value == AString(c.environment)
            && forall kv :: kv in kvs[3..] <==>
                 kv.key in c.resourceAttributes && ResourceValue(c.resourceAttributes[kv.key]) == Some(kv.value)
  {
    ResourceExtrasMembers(c.resourceAttributes, order);
    var kvs := CreateResource(c, order);
    assert kvs[3..] == ResourceExtras(c.resourceAttributes, order);
  }
  /**
   * The value a resource built from `kvs` keeps for `key`.
   * `resource.NewWithAttributes` puts the attributes in an `attribute.Set`,
   * which keeps one value per key, the last one given.
   */
  function ResourceLookup(kvs: seq<KeyValue>, key: string): Option<AttrValue>
    decreases |kvs|
  {
    if |kvs| == 0 then None
    else
      var later := ResourceLookup(kvs[1..], key);
      if later.Some? then later
      else if kvs[0].key == key then Some(kvs[0].value)
      else None
  }

  /** A later attribute for a key overrides an earlier one. */
  lemma {:induction false} ResourceLookupConcat(a: seq<KeyValue>, b: seq<KeyValue>, key: string)
    ensures ResourceLookup(a + b, key) ==
              if ResourceLookup(b, key).Some? then ResourceLookup(b, key) else ResourceLookup(a, key)
    decreases |a|
  {
    if |a| == 0 {
      assert a + b == b;
    } else {
      assert (a + b)[1..] == a[1..] + b;
      ResourceLookupConcat(a[1..], b, key);
    }
  }

  /** Each resource attribute appears once among the extras, so its typed value is the one kept. */
  lemma {:induction false} ResourceExtrasLookup(attrs: GoMap, order: seq<string>, key: string)
    requires forall i :: 0 <= i < |order| ==> order[i] in attrs
    requires forall i, j :: 0 <= i < j < |order| ==> order[i] != order[j]
    ensures ResourceLookup(ResourceExtras(attrs, order), key) ==
              if key in order then ResourceValue(attrs[key]) else None
    decreases |order|
  {
    if |order| > 0 {
      var v := ResourceValue(attrs[order[0]]);
      var head := if v.Some? then [KeyValue(order[0], v.value)] else [];
      assert ResourceExtras(attrs, order) == head + ResourceExtras(attrs, order[1..]);
      ResourceExtrasLookup(attrs, order[1..], key);
      ResourceLookupConcat(head, ResourceExtras(attrs, order[1..]), key);
      assert key in order <==> key == order[0] || key in order[1..];
      if key == order[0] {
        assert key !in order[1..];
      }
    }
  }

  /**
   * The resource keeps, for each key, the typed value of a resource
   * attribute of that name when there is one; so a custom "service.name",
   * "service.version" or "deployment.environment" replaces the configured
   * value, and otherwise the configured value stays.
   */
  lemma CreateResourceLookup(c: GoConfig.Config, order: seq<string>, key: string)
    requires Enumerates(order, c.resourceAttributes.Keys)
    ensures var custom := if key in c.resourceAttributes then ResourceValue(c.resourceAttributes[key]) else None;
            var r := CreateResource(c, order);
            && (custom.Some? ==> ResourceLookup(r, key) == custom)
            && (custom.None? && key == "service.name" ==> ResourceLookup(r, key) == Some(AString(c.serviceName)))
            && (custom.None? && key == "service.version" ==> ResourceLookup(r, key) == Some(AString(c.version)))
            && (custom.None? && key == "deployment.environment" ==>
                  ResourceLookup(r, key) == Some(AString(c.environment)))
  {
    var base := [KeyValue("service.name", AString(c.serviceName)), KeyValue("service.version", AString(c.version)),
                 KeyValue("deployment.environment", AString(c.environment))];
    assert forall i :: 0 <= i < |order| ==> order[i] in (set k | k in order);
    ResourceExtrasLookup(c.resourceAttributes, order, key);
    ResourceLookupConcat(base, ResourceExtras(c.resourceAttributes, order), key);
    assert base[1..][1..][1..] == [];
    assert ResourceLookup(base[2..], key) == if key == "deployment.environment" then Some(AString(c.environment)) else None;
    assert base[1..][1..] == base[2..];
    assert key in order <==> key in c.resourceAttributes by {
      assert key in order <==> key in (set k | k in order);
    }
  }
}

