/**
 * The Go SDK's instrumentation helpers (`instrumentation.go`). Each
 * `Trace*` wrapper is modelled by the effects it has, in order: the span or
 * workflow it starts, the call of the wrapped function, the one metric it
 * records, and the span or workflow it ends. The wrapped function's error
 * and the elapsed time are inputs.
 */
module GoInstrumentation {
  import opened Wrappers
  import opened GoValues
  import GoErrors
  import GoTracer
  import GoContext
  import Text
  import Digits

  /** `InstrumentationConfig`. */
  datatype InstrumentationConfig = InstrumentationConfig(enabled: bool, captureBody: bool, captureArgs: bool, maxBodySize: int)

  /** `DefaultInstrumentationConfig()`: enabled, capturing bodies of up to 1 MiB but not arguments. */
  function DefaultInstrumentationConfig(): (c: InstrumentationConfig)
    ensures c.enabled && c.captureBody && !c.captureArgs && c.maxBodySize == 1048576
  {
    InstrumentationConfig(true, true, false, 1024 * 1024)
  }

  /** One thing a traced call does, in the order it happens. */
  datatype Effect =
    | SpanStarted(name: string, attrs: GoMap)
    | LLMSpanStarted(name: string, opts: GoTracer.LLMSpanOptions)
    | WorkflowStarted(name: string, runId: string, wopts: GoContext.WorkflowOptions)
    | CallFn
    | ErrorRecorded(err: GoErrors.GoError, attrs: GoMap)
    | LatencyRecorded(durationNs: int, attrs: GoMap)
    | SpanEnded
    | WorkflowEnded

  /** The result of a traced call: its effects and the error it returns. */
  datatype Traced = Traced(effects: seq<Effect>, returned: Option<GoErrors.GoError>)

  /** The metric a finished call records: its error, or else its latency. */
  function Outcome(fnErr: Option<GoErrors.GoError>, durationNs: int, attrs: GoMap): Effect {
    if fnErr.Some? then ErrorRecorded(fnErr.value, attrs) else LatencyRecorded(durationNs, attrs)
  }

  /** The shape all the wrappers share: start, call, record, end; or only call when disabled. */
  function Trace(c: InstrumentationConfig, start: Effect, end: Effect, metricAttrs: GoMap,
                 fnErr: Option<GoErrors.GoError>, durationNs: int): Traced
  {
    if !c.enabled then Traced([CallFn], fnErr)
    else Traced([start, CallFn, Outcome(fnErr, durationNs, metricAttrs), end], fnErr)
  }

  /** How many effects of a list are metrics. */
  function MetricCount(es: seq<Effect>): nat
    decreases |es|
  {
    if |es| == 0 then 0
    else (if es[0].ErrorRecorded? || es[0].LatencyRecorded? then 1 else 0) + MetricCount(es[1..])
  }

  /**
   * Every wrapper returns the wrapped function's error unchanged and calls
   * the function exactly once. Disabled, it does nothing else. Enabled, it
   * starts its span or workflow before the call, records exactly one
   * metric after it, an error exactly when the call failed, and ends the
   * span or workflow last.
   */
  lemma TraceProperties(c: InstrumentationConfig, start: Effect, end: Effect, metricAttrs: GoMap,
                        fnErr: Option<GoErrors.GoError>, durationNs: int)
    requires !start.CallFn? && !end.CallFn?
    requires !(start.ErrorRecorded? || start.LatencyRecorded?) && !(end.ErrorRecorded? || end.LatencyRecorded?)
    ensures var t := Trace(c, start, end, metricAttrs, fnErr, durationNs);
            && t.returned == fnErr
            && multiset(t.effects)[CallFn] == 1
            && (!c.enabled ==> t.effects == [CallFn])
            && (c.enabled ==>
                  && |t.effects| == 4 && t.effects[0] == start && t.effects[1] == CallFn && t.effects[3] == end
                  && MetricCount(t.effects) == 1
                  && (t.effects[2].ErrorRecorded? <==> fnErr.Some?)
                  && (fnErr.Some? ==> t.effects[2] == ErrorRecorded(fnErr.value, metricAttrs))
                  && (fnErr.None? ==> t.effects[2] == LatencyRecorded(durationNs, metricAttrs)))
  {
    var t := Trace(c, start, end, metricAttrs, fnErr, durationNs);
    if c.enabled {
      var es := t.effects;
      var m := Outcome(fnErr, durationNs, metricAttrs);
      assert es[1..] == [CallFn, m, end];
      assert [CallFn, m, end][1..] == [m, end];
      assert [m, end][1..] == [end];
      assert [end][1..] == [];
      assert MetricCount([end]) == 0;
      assert MetricCount([m, end]) == 1;
      assert MetricCount(es[1..]) == 1;
      assert multiset(es) == multiset{start} + multiset{CallFn} + multiset{es[2]} + multiset{end};
    }
  }

  /** `TraceFunction(ctx, name, fn, attrs...)`. */
  function TraceFunction(c: InstrumentationConfig, name: string, attrs: seq<KeyValue>,
                         fnErr: Option<GoErrors.GoError>, durationNs: int): Traced
  {
    Trace(c, SpanStarted(name, AttributesToMap(attrs)), SpanEnded, map["function" := GString(name)], fnErr, durationNs)
  }

  /** The attributes the LLM wrapper's metric carries: provider, model and operation. */
  function LLMMetricAttributes(opts: GoTracer.LLMSpanOptions): GoMap {
    map["provider" := GString(opts.provider), "model" := GString(opts.model), "operation" := GString(opts.operation)]
  }

  /** `TraceLLMCall(ctx, name, opts, fn)`. */
  function TraceLLMCall(c: InstrumentationConfig, name: string, opts: GoTracer.LLMSpanOptions,
                        fnErr: Option<GoErrors.GoError>, durationNs: int): Traced
  {
    Trace(c, LLMSpanStarted(name, opts), SpanEnded, LLMMetricAttributes(opts), fnErr, durationNs)
  }

  /** `TraceHTTPRequest(ctx, method, url, fn)`. */
  function TraceHTTPRequest(c: InstrumentationConfig, verb: string, url: string,
                            fnErr: Option<GoErrors.GoError>, durationNs: int): Traced
  {
    var attrs := map["http.method" := GString(verb), "http.url" := GString(url)];
    Trace(c, SpanStarted(verb + " " + url, attrs), SpanEnded, attrs, fnErr, durationNs)
  }

  /** `TraceDatabaseQuery(ctx, operation, table, fn)`. */
  function TraceDatabaseQuery(c: InstrumentationConfig, operation: string, table: string,
                              fnErr: Option<GoErrors.GoError>, durationNs: int): Traced
  {
    var attrs := map["db.operation" := GString(operation), "db.table" := GString(table)];
    Trace(c, SpanStarted("db." + operation, attrs), SpanEnded, attrs, fnErr, durationNs)
  }

  /** `TraceWorkflow(ctx, name, runID, opts, fn)`. */
  function TraceWorkflow(c: InstrumentationConfig, name: string, runId: string, opts: GoContext.WorkflowOptions,
                         fnErr: Option<GoErrors.GoError>, durationNs: int): Traced
  {
    Trace(c, WorkflowStarted(name, runId, opts), WorkflowEnded,
          map["workflow.name" := GString(name), "workflow.run_id" := GString(runId)], fnErr, durationNs)
  }

  /**
   * The HTTP and database wrappers name the span after the request ("GET
   * /x") or the operation ("db.select"), and tag their metric with the
   * same two attributes as the span.
   */
  lemma RequestSpansProperties(c: InstrumentationConfig, verb: string, url: string, operation: string, table: string,
                               fnErr: Option<GoErrors.GoError>, durationNs: int)
    requires c.enabled
    ensures var t := TraceHTTPRequest(c, verb, url, fnErr, durationNs);
            && t.effects[0].SpanStarted? && t.effects[0].name == verb + " " + url
            && t.effects[0].attrs.Keys == {"http.method", "http.url"}
            && t.effects[2].attrs == t.effects[0].attrs
    ensures var t := TraceDatabaseQuery(c, operation, table, fnErr, durationNs);
            && t.effects[0].SpanStarted? && t.effects[0].name == "db." + operation
            && t.effects[0].attrs["db.operation"] == GString(operation) && t.effects[0].attrs["db.table"] == GString(table)
            && t.effects[2].attrs == t.effects[0].attrs
  {
  }

  /**
   * The function wrapper tags its span with the given attributes and its
   * metric with the function's name alone; the LLM wrapper tags its metric
   * with the options' provider, model and operation; the workflow wrapper
   * starts and ends the workflow around the call.
   */
  lemma WrapperAttributes(c: InstrumentationConfig, name: string, attrs: seq<KeyValue>, opts: GoTracer.LLMSpanOptions,
                          runId: string, wopts: GoContext.WorkflowOptions, fnErr: Option<GoErrors.GoError>, durationNs: int)
    requires c.enabled
    ensures var t := TraceFunction(c, name, attrs, fnErr, durationNs);
            t.effects[0] == SpanStarted(name, AttributesToMap(attrs)) && t.effects[2].attrs == map["function" := GString(name)]
    ensures var t := TraceLLMCall(c, name, opts, fnErr, durationNs);
            && t.effects[0] == LLMSpanStarted(name, opts)
            && t.effects[2].attrs.Keys == {"provider", "model", "operation"}
            && t.effects[2].attrs["model"] == GString(opts.model)
    ensures var t := TraceWorkflow(c, name, runId, wopts, fnErr, durationNs);
            t.effects[0] == WorkflowStarted(name, runId, wopts) && t.effects[3] == WorkflowEnded
  {
  }

  // ----- attributesToMap -----

  /** The type switch of `attributesToMap`: each attribute value as the Go value it holds. */
  function ToGo(v: AttrValue): GoValue {
    match v
    case AString(s) => GString(s)
    case ABool(b) => GBool(b)
    case AInt64(i) => GInt64(i)
    case AFloat64(f) => GFloat64(f)
    case AStrings(ss) => GStrings(ss)
    case AInt64s(ns) => GInt64s(ns)
    case AFloat64s(fs) => GFloat64s(fs)
    case ABools(bs) => GBools(bs)
  }

  /** `attributesToMap(attrs)`: each attribute in turn, a later one overwriting an earlier one of the same key. */
  function AttributesToMap(kvs: seq<KeyValue>): GoMap
    decreases |kvs|
  {
    if |kvs| == 0 then map[]
    else AttributesToMap(kvs[..|kvs| - 1])[kvs[|kvs| - 1].key := ToGo(kvs[|kvs| - 1].value)]
  }

  /** The map's keys are the attributes' keys. */
  lemma {:induction false} AttributesToMapKeys(kvs: seq<KeyValue>)
    ensures AttributesToMap(kvs).Keys == set k | k in Keys(kvs)
    decreases |kvs|
  {
    if kvs != [] {
      var init := kvs[..|kvs| - 1];
      AttributesToMapKeys(init);
      assert Keys(kvs) == Keys(init) + [kvs[|kvs| - 1].key];
    }
  }

  /** A key holds the value of the last attribute with that key. */
  lemma {:induction false} AttributesToMapValue(kvs: seq<KeyValue>, i: int)
    requires 0 <= i < |kvs|
    requires forall j :: i < j < |kvs| ==> kvs[j].key != kvs[i].key
    ensures kvs[i].key in AttributesToMap(kvs) && AttributesToMap(kvs)[kvs[i].key] == ToGo(kvs[i].value)
    decreases |kvs|
  {
    if i < |kvs| - 1 {
      var init := kvs[..|kvs| - 1];
      assert init[i] == kvs[i];
      forall j | i < j < |init| ensures init[j].key != init[i].key {
        assert init[j] == kvs[j];
      }
      AttributesToMapValue(init, i);
    }
  }

  /**
   * Turning attributes into a map and back through the tracer's conversion
   * gives each attribute back, except the int64 and bool slices, which the
   * tracer has no case for and turns into their text.
   */
  lemma AttributesRoundTrip(kvs: seq<KeyValue>)
    requires forall i, j :: 0 <= i < j < |kvs| ==> kvs[i].key != kvs[j].key
    ensures Enumerates(Keys(kvs), AttributesToMap(kvs).Keys)
    ensures var back := GoTracer.BuildAttributes(AttributesToMap(kvs), Keys(kvs));
            && |back| == |kvs|
            && forall i :: 0 <= i < |kvs| ==>
                 (back[i] == kvs[i] <==> !kvs[i].value.AInt64s? && !kvs[i].value.ABools?)
  {
    AttributesToMapKeys(kvs);
    var back := GoTracer.BuildAttributes(AttributesToMap(kvs), Keys(kvs));
    forall i | 0 <= i < |kvs|
      ensures back[i] == kvs[i] <==> !kvs[i].value.AInt64s? && !kvs[i].value.ABools?
    {
      AttributesToMapValue(kvs, i);
      assert back[i] == KeyValue(kvs[i].key, GoTracer.ConvertValue(ToGo(kvs[i].value)));
      ConvertToGo(kvs[i].value);
    }
  }

  /** The tracer's conversion undoes `ToGo` except on int64 and bool slices. */
  lemma ConvertToGo(v: AttrValue)
    ensures GoTracer.ConvertValue(ToGo(v)) == v <==> !v.AInt64s? && !v.ABools?
  {
  }

  // ----- Helpers -----

  /** A stack frame as `runtime.Caller` and `runtime.FuncForPC` report it. */
  datatype Frame = Frame(funcName: Option<string>, file: string, line: int)

  /** `GetFunctionName()`: the caller's function name after its last dot, or "unknown". */
  function GetFunctionName(caller: Option<string>): string {
    if caller.None? then "unknown"
    else
      LastPiece(caller.value, '.')
  }

  /** `last` ends `s` and is either all of `s` or preceded by a `c`. */
  predicate EndsWithPiece(s: string, last: string, c: char) {
    && |last| <= |s| && s[|s| - |last|..] == last
    && (|last| < |s| ==> s[|s| - |last| - 1] == c)
  }

  /** The last piece of `s` split on `c`. */
  function LastPiece(s: string, c: char): string {
    var parts := Text.Split(s, c);
    parts[|parts| - 1]
  }

  lemma {:induction false} SplitLast(s: string, c: char)
    ensures EndsWithPiece(s, LastPiece(s, c), c)
    decreases |s|
  {
    var i := Text.IndexOf(s, c);
    if i < |s| {
      var rest := s[i + 1..];
      SplitLast(rest, c);
      assert EndsWithPiece(s, LastPiece(s, c), c) by {
        SplitLastStep(s, c);
        SuffixOfRest(s, i + 1, rest, LastPiece(rest, c), c);
      }
    } else {
      assert EndsWithPiece(s, LastPiece(s, c), c) by {
        Text.SplitWhole(s, c);
        assert LastPiece(s, c) == s;
        assert s[0..] == s;
      }
    }
  }

  /** Past a first separator, the last piece is the last piece of what follows it. */
  lemma SplitLastStep(s: string, c: char)
    requires Text.IndexOf(s, c) < |s|
    ensures LastPiece(s, c) == LastPiece(s[Text.IndexOf(s, c) + 1..], c)
  {
    var i := Text.IndexOf(s, c);
    Text.SplitAtFirst(s, c);
    LastOfCons(Text.Split(s, c), s[..i], Text.Split(s[i + 1..], c));
  }

  lemma LastOfCons<T>(u: seq<T>, x: T, t: seq<T>)
    requires u == [x] + t && |t| > 0
    ensures u[|u| - 1] == t[|t| - 1]
  {
  }

  /** A piece ending `s[j..]`, where `s[j - 1]` is the separator, ends `s` the same way. */
  lemma SuffixOfRest(s: string, j: nat, rest: string, last: string, c: char)
    requires 0 < j <= |s| && s[j - 1] == c && rest == s[j..]
    requires EndsWithPiece(rest, last, c)
    ensures EndsWithPiece(s, last, c)
  {
    assert s[|s| - |last|..] == rest[|rest| - |last|..];
    if |last| < |rest| {
      assert s[|s| - |last| - 1] == rest[|rest| - |last| - 1];
    }
  }

  /**
   * The name is the part of the full name after its last dot: it holds no
   * dot, ends the full name, and is the whole name or follows a dot.
   */
  lemma GetFunctionNameProperties(caller: Option<string>)
    ensures caller.None? ==> GetFunctionName(caller) == "unknown"
    ensures caller.Some? ==>
              var name := GetFunctionName(caller);
              var full := caller.value;
              && '.' !in name && |name| <= |full| && full[|full| - |name|..] == name
              && (|name| < |full| ==> full[|full| - |name| - 1] == '.')
  {
    if caller.Some? {
      SplitLast(caller.value, '.');
      Text.SplitPiecesFree(caller.value, '.');
    }
  }

  /** `GetCallerInfo(skip)`: function name, file and line, "unknown" where the runtime has nothing. */
  function GetCallerInfo(frame: Option<Frame>): (r: (string, string, int))
    ensures frame.None? ==> r == ("unknown", "unknown", 0)
    ensures frame.Some? ==> r.1 == frame.value.file && r.2 == frame.value.line
    ensures frame.Some? ==> r.0 == frame.value.funcName.GetOr("unknown")
  {
    if frame.None? then ("unknown", "unknown", 0)
    else if frame.value.funcName.Some? then (frame.value.funcName.value, frame.value.file, frame.value.line)
    else ("unknown", frame.value.file, frame.value.line)
  }

  function JoinStrings(ss: seq<string>): string
    decreases |ss|
  {
    if |ss| == 0 then "" else if |ss| == 1 then ss[0] else ss[0] + " " + JoinStrings(ss[1..])
  }

  /** `SafeString(value)`; `formatFloat` is `%v` for a float64, whose shortest-digits rendering is not modelled. */
  function SafeString(v: GoValue, formatFloat: real -> string): string {
    match v
    case GNil => ""
    case GString(s) => s
    case GInt(i) => Digits.Decimal(i)
    case GInt64(i) => Digits.Decimal(i)
    case GFloat64(f) => formatFloat(f)
    case GBool(b) => BoolText(b)
    case GStrings(ss) => "[" + JoinStrings(ss) + "]"
    case GInts(ns) => "[" + JoinInts(ns) + "]"
    case GInt64s(ns) => "[" + JoinInts(ns) + "]"
    case GFloat64s(fs) => "[" + JoinFloats(fs, formatFloat) + "]"
    case GBools(bs) => "[" + JoinBools(bs) + "]"
    case GTime(_, text) => text
    case GOther(text) => text
  }

  function JoinFloats(fs: seq<real>, formatFloat: real -> string): string
    decreases |fs|
  {
    if |fs| == 0 then "" else if |fs| == 1 then formatFloat(fs[0]) else formatFloat(fs[0]) + " " + JoinFloats(fs[1..], formatFloat)
  }

  /**
   * nil becomes the empty string rather than "<nil>"; a string is itself;
   * every other value reads as its `%v` text, the same text the tracer's
   * fallback case gives it.
   */
  lemma SafeStringProperties(v: GoValue, formatFloat: real -> string)
    ensures v.GNil? ==> SafeString(v, formatFloat) == "" && Display(v) == "<nil>"
    ensures v.GString? ==> SafeString(v, formatFloat) == v.s
    ensures Untyped(v) && !v.GNil? ==> SafeString(v, formatFloat) == Display(v)
    ensures v.GInt? && v.i >= 0 ==> Digits.FromDigits(SafeString(v, formatFloat), 10) == v.i
  {
    if v.GInt? && v.i >= 0 {
      Digits.DecimalRoundTrip(v.i);
    }
  }

  /** `TruncateString(s, maxLen)`; a negative length on a non-empty string panics on the slice. */
  function TruncateString(s: string, maxLen: int): (r: Result<string, string>)
    ensures r.Err? <==> |s| > maxLen && maxLen < 0
  {
    if |s| <= maxLen then Ok(s)
    else if maxLen < 0 then Err("slice bounds out of range")
    else Ok(s[..maxLen] + "...")
  }

  /**
   * A string within the limit is kept; a longer one becomes its first
   * `maxLen` characters and "...", so `maxLen + 3` long; truncating twice
   * is truncating once.
   */
  lemma TruncateStringProperties(s: string, maxLen: int)
    requires maxLen >= 0
    ensures var r := TruncateString(s, maxLen).value;
            && (|s| <= maxLen ==> r == s)
            && (|s| > maxLen ==> |r| == maxLen + 3 && r[..maxLen] == s[..maxLen] && r[maxLen..] == "...")
            && TruncateString(r, maxLen) == Ok(r)
  {
    if |s| > maxLen {
      var r := s[..maxLen] + "...";
      assert r[..maxLen] == s[..maxLen];
    }
  }

  /** The kinds of `reflect.Value`, as far as `IsNil` tells them apart. */
  datatype Kind = Chan | Func | Interface | Map | Ptr | Slice | OtherKind

  /** A value handed to `IsNil`: the nil interface, or a value of some kind, itself nil or not. */
  datatype Dynamic = NilInterface | Value(kind: Kind, isNil: bool)

  /** `IsNil(value)`. */
  function IsNil(v: Dynamic): (r: bool)
    ensures r <==> v.NilInterface? || (v.isNil && v.kind != OtherKind)
  {
    if v.NilInterface? then true
    else match v.kind
      case Chan => v.isNil
      case Func => v.isNil
      case Interface => v.isNil
      case Map => v.isNil
      case Ptr => v.isNil
      case Slice => v.isNil
      case OtherKind => false
  }
}
