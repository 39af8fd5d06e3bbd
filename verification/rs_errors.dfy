/**
 * The Rust SDK's error type (`error.rs`): `UntraceError`, one variant per
 * kind of failure. The SDK's own variants carry a message; the ones
 * converted from a library error carry that error's text.
 */
module RsErrors {
  datatype UntraceError =
    | Config(message: string)
    | Api(message: string)
    | Validation(message: string)
    | Initialization(message: string)
    | Export(message: string)
    | Instrumentation(message: string)
    | Http(source: string)
    | Serialization(source: string)
    | OpenTelemetry(source: string)
    | Io(source: string)
    | Url(source: string)
    | Unknown(message: string)

  /** The name each variant's `Display` gives the kind of failure. */
  function Name(e: UntraceError): string {
    match e
    case Config(_) => "Configuration error"
    case Api(_) => "API error"
    case Validation(_) => "Validation error"
    case Initialization(_) => "Initialization error"
    case Export(_) => "Export error"
    case Instrumentation(_) => "Instrumentation error"
    case Http(_) => "HTTP error"
    case Serialization(_) => "Serialization error"
    case OpenTelemetry(_) => "OpenTelemetry error"
    case Io(_) => "IO error"
    case Url(_) => "URL parsing error"
    case Unknown(_) => "Unknown error"
  }

  /** The text each variant's `Display` puts before its message or source. */
  function Heading(e: UntraceError): string {
    Name(e) + ": "
  }

  /** What the variant carries. */
  function Detail(e: UntraceError): string {
    if e.Http? || e.Serialization? || e.OpenTelemetry? || e.Io? || e.Url? then e.source else e.message
  }

  /** `e.to_string()`. */
  function Display(e: UntraceError): (s: string)
    ensures s == Heading(e) + Detail(e)
  {
    Heading(e) + Detail(e)
  }

  /** Where the first colon of `s` is, or `|s|` when it has none. */
  function ColonIndex(s: string): (i: nat)
    ensures i <= |s| && (i < |s| ==> s[i] == ':')
    ensures forall j :: 0 <= j < i ==> s[j] != ':'
  {
    if s == [] || s[0] == ':' then 0 else 1 + ColonIndex(s[1..])
  }

  /** The SDK's own variants' names hold no colon. */
  lemma OwnNameHasNoColon(e: UntraceError)
    requires e.Config? || e.Api? || e.Validation? || e.Initialization? || e.Export? || e.Instrumentation?
    ensures ':' !in Name(e)
  {
    match e
    case Config(_) =>
    case Api(_) =>
    case Validation(_) =>
    case Initialization(_) =>
    case Export(_) =>
    case Instrumentation(_) =>
  }

  /** The other variants' names hold no colon either. */
  lemma OtherNameHasNoColon(e: UntraceError)
    requires !(e.Config? || e.Api? || e.Validation? || e.Initialization? || e.Export? || e.Instrumentation?)
    ensures ':' !in Name(e)
  {
    match e
    case Http(_) =>
    case Serialization(_) =>
    case OpenTelemetry(_) =>
    case Io(_) =>
    case Url(_) =>
    case Unknown(_) =>
  }

  /** Every heading ends in ": " and holds no earlier colon. */
  lemma HeadingShape(e: UntraceError)
    ensures |Heading(e)| >= 2 && Heading(e)[|Heading(e)| - 2] == ':'
    ensures forall j :: 0 <= j < |Heading(e)| - 2 ==> Heading(e)[j] != ':'
  {
    var n := Name(e);
    assert Heading(e)[|n|] == ':';
    if e.Config? || e.Api? || e.Validation? || e.Initialization? || e.Export? || e.Instrumentation? {
      OwnNameHasNoColon(e);
    } else {
      OtherNameHasNoColon(e);
    }
    forall j | 0 <= j < |Heading(e)| - 2
      ensures Heading(e)[j] != ':'
    {
      assert Heading(e)[j] == n[j];
    }
  }

  /** The first colon of a displayed error is the one its heading ends with. */
  lemma ColonOfDisplay(e: UntraceError)
    ensures ColonIndex(Display(e)) == |Heading(e)| - 2
  {
    HeadingShape(e);
    var s, h := Display(e), Heading(e);
    assert s[|h| - 2] == h[|h| - 2] == ':';
    forall j | 0 <= j < |h| - 2
      ensures s[j] != ':'
    {
      assert s[j] == h[j];
    }
  }

  /** The variants have twelve different names. */
  lemma HeadingInjective(e1: UntraceError, e2: UntraceError)
    requires Heading(e1) == Heading(e2)
    ensures Detail(e1) == Detail(e2) ==> e1 == e2
  {
    assert Name(e1) == Heading(e1)[..|Heading(e1)| - 2];
    assert Name(e2) == Heading(e2)[..|Heading(e2)| - 2];
  }

  /** The text of an error determines the error: the variant and what it carries. */
  lemma DisplayInjective(e1: UntraceError, e2: UntraceError)
    requires Display(e1) == Display(e2)
    ensures e1 == e2
  {
    ColonOfDisplay(e1);
    ColonOfDisplay(e2);
    var s := Display(e1);
    var n := ColonIndex(s) + 2;
    assert Heading(e1) == s[..n] == Heading(e2);
    assert Detail(e1) == s[n..] == Detail(e2);
    HeadingInjective(e1, e2);
  }
}
