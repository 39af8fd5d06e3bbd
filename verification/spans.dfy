/**
 * Spans as the Python SDK drives them: a span is started with a name, a
 * kind, initial attributes and a parent context, and from then on the SDK
 * appends actions to it. A span is modelled by what it was started with and
 * by the log of actions applied to it, in order.
 */
module Spans {
  import opened Wrappers
  import opened PyValues

  /** OpenTelemetry's span kinds, whose integer values the exporter sends. */
  datatype SpanKind = Internal | Server | Client | Producer | Consumer

  function KindValue(k: SpanKind): (v: nat)
    ensures v <= 4
  {
    match k
    case Internal => 0
    case Server => 1
    case Client => 2
    case Producer => 3
    case Consumer => 4
  }

  /** OpenTelemetry's status codes, whose integer values the exporter sends. */
  datatype StatusCode = Unset | StatusOk | StatusError

  function StatusValue(c: StatusCode): (v: nat)
    ensures v <= 2
  {
    match c
    case Unset => 0
    case StatusOk => 1
    case StatusError => 2
  }

  /** An opaque parent: a context or a span handed in by the caller. */
  datatype Parent = Parent(id: nat)

  datatype Action =
    | SetAttribute(key: string, value: PyValue)
    | AddEvent(name: string)
    | RecordException(error: PyException)
    | SetStatus(code: StatusCode, description: Option<string>)
    | End

  /** What a wrapped callable did: return a value or raise an exception. */
  datatype Outcome<+R> = Returned(value: R) | Raised(error: PyException)

  datatype StartedSpan = StartedSpan(name: string, kind: SpanKind, attributes: Attrs, parent: Parent)

  /** A span's whole life around one wrapped call: how it started, what was done to it, and how the call ended. */
  datatype Traced<+R> = Traced(span: StartedSpan, log: seq<Action>, outcome: Outcome<R>)

  function CountEnds(log: seq<Action>): nat {
    if |log| == 0 then 0 else CountEnds(log[..|log| - 1]) + (if log[|log| - 1].End? then 1 else 0)
  }

  lemma {:induction false} CountEndsAppend(a: seq<Action>, b: seq<Action>)
    ensures CountEnds(a + b) == CountEnds(a) + CountEnds(b)
    decreases |b|
  {
    if b != [] {
      assert (a + b)[..|a + b| - 1] == a + b[..|b| - 1];
      CountEndsAppend(a, b[..|b| - 1]);
    } else {
      assert a + b == a;
    }
  }

  lemma CountEndsOne(a: Action)
    ensures CountEnds([a]) == if a.End? then 1 else 0
  {
    assert [a][..0] == [];
  }

  /** The status set last in a log, if any. */
  function LastStatus(log: seq<Action>): Option<(StatusCode, Option<string>)> {
    if |log| == 0 then None
    else if log[|log| - 1].SetStatus? then Some((log[|log| - 1].code, log[|log| - 1].description))
    else LastStatus(log[..|log| - 1])
  }

  /** The attribute assignments in a log, in order: the later of two assignments to a key wins. */
  function Assignments(log: seq<Action>): Attrs {
    if |log| == 0 then []
    else
      var last := log[|log| - 1];
      Assignments(log[..|log| - 1]) + (if last.SetAttribute? then [(last.key, last.value)] else [])
  }

  lemma {:induction false} AssignmentsConcat(a: seq<Action>, b: seq<Action>)
    ensures Assignments(a + b) == Assignments(a) + Assignments(b)
    decreases |b|
  {
    if b == [] {
      assert a + b == a;
    } else {
      assert (a + b)[..|a + b| - 1] == a + b[..|b| - 1];
      AssignmentsConcat(a, b[..|b| - 1]);
    }
  }

  /** The names of the events added in a log, in order. */
  function Events(log: seq<Action>): seq<string> {
    if |log| == 0 then []
    else
      var last := log[|log| - 1];
      Events(log[..|log| - 1]) + (if last.AddEvent? then [last.name] else [])
  }

  lemma {:induction false} EventsConcat(a: seq<Action>, b: seq<Action>)
    ensures Events(a + b) == Events(a) + Events(b)
    decreases |b|
  {
    if b == [] {
      assert a + b == a;
    } else {
      assert (a + b)[..|a + b| - 1] == a + b[..|b| - 1];
      EventsConcat(a, b[..|b| - 1]);
    }
  }

  /** A log that sets no attribute assigns nothing. */
  lemma {:induction false} AssignmentsNone(log: seq<Action>)
    requires forall i :: 0 <= i < |log| ==> !log[i].SetAttribute?
    ensures Assignments(log) == []
    decreases |log|
  {
    if log != [] {
      AssignmentsNone(log[..|log| - 1]);
    }
  }

  /** A log that adds no event names none. */
  lemma {:induction false} EventsNone(log: seq<Action>)
    requires forall i :: 0 <= i < |log| ==> !log[i].AddEvent?
    ensures Events(log) == []
    decreases |log|
  {
    if log != [] {
      EventsNone(log[..|log| - 1]);
    }
  }
}
