/**
 * `UntraceTracer`: starting spans of the SDK's kinds and running a callable
 * inside a span that is always ended and whose status reflects how the
 * callable finished.
 */
module PyTracer {
  import opened Wrappers
  import opened PyValues
  import opened Spans
  import opened PyTypes
  import OrderedDict

  /** `start_span(options)`: without an explicit parent, the current context is the parent. */
  function StartSpan(options: SpanOptions, current: Parent): (s: StartedSpan)
    ensures s.name == options.name && s.kind == options.kind && s.attributes == options.attributes
    ensures options.parent.Some? ==> s.parent == options.parent.value
    ensures options.parent.None? ==> s.parent == current
  {
    StartedSpan(options.name, options.kind, options.attributes, options.parent.GetOr(current))
  }

  /** The attributes argument of the LLM helpers: an `LLMSpanAttributes` bag or a plain dictionary. */
  datatype LlmAttributesArg = LlmBag(bag: Attrs) | PlainDict(dict: Attrs)

  /** The dictionary an LLM attributes argument stands for (`to_dict()` of a bag). */
  function AttributesOf(a: LlmAttributesArg): Attrs {
    match a
    case LlmBag(bag) => bag
    case PlainDict(d) => d
  }

  /** `start_llm_span(name, attributes, parent)`: a CLIENT span carrying the LLM attributes. */
  function StartLlmSpan(name: string, attributes: LlmAttributesArg, parent: Option<Parent>, current: Parent): (s: StartedSpan)
    ensures s.name == name && s.kind == Client
    ensures s.attributes == AttributesOf(attributes)
    ensures s.parent == parent.GetOr(current)
  {
    StartSpan(MakeSpanOptions(name, Some(Client), Some(AttributesOf(attributes)), parent), current)
  }

  /** The attributes of a span named after its subject: `{key: name}` updated with the caller's, if any. */
  function NamedAttributes(key: string, name: string, attributes: Option<Attrs>): Attrs {
    var base := [(key, PStr(name))];
    if attributes.Some? && attributes.value != [] then OrderedDict.Update(base, attributes.value) else base
  }

  /** `start_workflow_span(name, attributes, parent)`: an INTERNAL span with `workflow.name` first. */
  function StartWorkflowSpan(name: string, attributes: Option<Attrs>, parent: Option<Parent>, current: Parent): (s: StartedSpan)
    ensures s.name == name && s.kind == Internal && s.parent == parent.GetOr(current)
    ensures s.attributes == NamedAttributes("workflow.name", name, attributes)
  {
    StartSpan(MakeSpanOptions(name, Some(Internal), Some(NamedAttributes("workflow.name", name, attributes)), parent), current)
  }

  /** `start_tool_span(name, attributes, parent)`: an INTERNAL span with `tool.name` first. */
  function StartToolSpan(name: string, attributes: Option<Attrs>, parent: Option<Parent>, current: Parent): (s: StartedSpan)
    ensures s.name == name && s.kind == Internal && s.parent == parent.GetOr(current)
    ensures s.attributes == NamedAttributes("tool.name", name, attributes)
  {
    StartSpan(MakeSpanOptions(name, Some(Internal), Some(NamedAttributes("tool.name", name, attributes)), parent), current)
  }

  /**
   * The subject key comes first; it holds the span's name unless the
   * caller's attributes set it too, every caller attribute is present with
   * its value, and nothing else is.
   */
  lemma NamedAttributesProperties(key: string, name: string, attributes: Option<Attrs>)
    ensures var a := NamedAttributes(key, name, attributes);
            && |a| >= 1 && a[0].0 == key
            && OrderedDict.UniqueKeys(a)
            && (forall k :: attributes.Some? && k in OrderedDict.Keys(attributes.value) ==>
                  OrderedDict.Get(a, k) == OrderedDict.Get(attributes.value, k))
            && (attributes.None? || key !in OrderedDict.Keys(attributes.value) ==>
                  OrderedDict.Get(a, key) == Some(PStr(name)))
            && (forall k :: k != key && (attributes.None? || k !in OrderedDict.Keys(attributes.value)) ==>
                  OrderedDict.Get(a, k) == None)
  {
    var base := [(key, PStr(name))];
    if attributes.Some? && attributes.value != [] {
      OrderedDict.UpdateProperties(base, attributes.value);
      assert OrderedDict.Keys(base) == [key];
    }
    forall k | attributes.Some? && k in OrderedDict.Keys(attributes.value)
      ensures attributes.value != []
    {
    }
    forall k | k != key
      ensures OrderedDict.Get(base, k) == None
    {
      OrderedDict.GetDefined(base, k);
    }
  }

  /** The actions that close a span once the wrapped callable has finished. */
  function Closing<R>(outcome: Outcome<R>): seq<Action> {
    match outcome
    case Returned(_) => [SetStatus(StatusOk, None), End]
    case Raised(e) => [RecordException(e), SetStatus(StatusError, Some(e.message)), End]
  }

  /**
   * `with_span(options, fn)`: starts the span, lets `fn` act on it
   * (`fnLog`), then sets OK or records the exception and sets ERROR with
   * its message, ends the span, and returns or re-raises what `fn` did.
   */
  function WithSpan<R>(options: SpanOptions, current: Parent, fnLog: seq<Action>, fnOutcome: Outcome<R>): Traced<R> {
    Traced(StartSpan(options, current), fnLog + Closing(fnOutcome), fnOutcome)
  }

  /** `with_llm_span(name, attributes, fn)`: `with_span` on a CLIENT span in the current context. */
  function WithLlmSpan<R>(name: string, attributes: LlmAttributesArg, current: Parent, fnLog: seq<Action>, fnOutcome: Outcome<R>): (t: Traced<R>)
    ensures t.span.kind == Client && t.span.name == name && t.span.attributes == AttributesOf(attributes)
    ensures t.span.parent == current
  {
    WithSpan(MakeSpanOptions(name, Some(Client), Some(AttributesOf(attributes)), None), current, fnLog, fnOutcome)
  }

  /** Closing a span adds no attribute and no event: those are exactly what `fn` did. */
  lemma WithSpanKeepsWrites<R>(options: SpanOptions, current: Parent, fnLog: seq<Action>, fnOutcome: Outcome<R>)
    ensures var t := WithSpan(options, current, fnLog, fnOutcome);
            Assignments(t.log) == Assignments(fnLog) && Events(t.log) == Events(fnLog)
  {
    var c := Closing(fnOutcome);
    AssignmentsConcat(fnLog, c);
    EventsConcat(fnLog, c);
    AssignmentsNone(c);
    EventsNone(c);
  }

  /**
   * Whatever the callable does, the wrapper keeps its actions as they
   * were, ends the span exactly once more and as the very last action,
   * passes the outcome through unchanged, and the final status is OK
   * exactly when the callable returned; on a raise the exception is
   * recorded and its message is the status description.
   */
  lemma {:induction false} WithSpanProperties<R>(options: SpanOptions, current: Parent, fnLog: seq<Action>, fnOutcome: Outcome<R>)
    ensures var t := WithSpan(options, current, fnLog, fnOutcome);
            && t.outcome == fnOutcome
            && t.span == StartSpan(options, current)
            && |t.log| > |fnLog| && t.log[..|fnLog|] == fnLog
            && t.log[|t.log| - 1] == End
            && CountEnds(t.log) == CountEnds(fnLog) + 1
            && (LastStatus(t.log) == Some((StatusOk, None)) <==> fnOutcome.Returned?)
            && (fnOutcome.Raised? ==>
                  RecordException(fnOutcome.error) in t.log[|fnLog|..]
                  && LastStatus(t.log) == Some((StatusError, Some(fnOutcome.error.message))))
  {
    var t := WithSpan(options, current, fnLog, fnOutcome);
    var tail := Closing(fnOutcome);
    var n := |t.log|;
    ClosingShape(fnOutcome);
    CountEndsAppend(fnLog, tail);
    assert t.log[..|fnLog|] == fnLog && t.log[|fnLog|..] == tail;
    assert t.log[n - 1] == End && t.log[n - 2] == tail[|tail| - 2];
    assert LastStatus(t.log) == LastStatus(t.log[..n - 1]);
    assert t.log[..n - 1][n - 2] == tail[|tail| - 2];
  }

  /**
   * The closing actions: one end, last; the status set just before it is
   * OK after a return and ERROR with the message after a raise, which also
   * records the exception.
   */
  lemma ClosingShape<R>(outcome: Outcome<R>)
    ensures var c := Closing(outcome);
            && |c| >= 2 && CountEnds(c) == 1 && c[|c| - 1] == End
            && c[|c| - 2] == (if outcome.Returned? then SetStatus(StatusOk, None)
                              else SetStatus(StatusError, Some(outcome.error.message)))
            && (outcome.Raised? ==> RecordException(outcome.error) in c)
  {
    match outcome
    case Returned(_) =>
      var ok := SetStatus(StatusOk, None);
      assert Closing(outcome) == [ok] + [End];
      CountEndsAppend([ok], [End]);
      CountEndsOne(ok);
      CountEndsOne(End);
    case Raised(e) =>
      var rec, err := RecordException(e), SetStatus(StatusError, Some(e.message));
      assert Closing(outcome) == [rec] + [err] + [End];
      CountEndsAppend([rec] + [err], [End]);
      CountEndsAppend([rec], [err]);
      CountEndsOne(rec);
      CountEndsOne(err);
      CountEndsOne(End);
  }
}
