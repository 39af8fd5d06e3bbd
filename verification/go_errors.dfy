/**
 * The Go SDK's errors (`errors.go`): an `UntraceError` carries a message
 * and an optional wrapped cause, and the API, validation, configuration
 * and instrumentation errors embed it with one extra field each. Errors
 * the SDK builds with `fmt.Errorf` are here too, as a plain text or a
 * prefix wrapping a cause with `%w`.
 */
module GoErrors {
  import opened Wrappers

  /** Which `UntraceError` it is, with that kind's own fields. */
  datatype ErrorKind =
    | Base
    | Api(statusCode: int, response: string)
    | Validation(field: string)
    | Configuration
    | Instrumentation(provider: string)

  datatype GoError =
    | Untrace(kind: ErrorKind, message: string, cause: Option<GoError>)
    | Plain(text: string)
    | Wrapped(prefix: string, inner: GoError)

  /** `err.Error()`. */
  function ErrorText(e: GoError): string {
    match e
    case Untrace(_, message, cause) => if cause.Some? then message + ": " + ErrorText(cause.value) else message
    case Plain(text) => text
    case Wrapped(prefix, inner) => prefix + ": " + ErrorText(inner)
  }

  /** `errors.Unwrap(err)`: the wrapped cause, if any. */
  function Unwrap(e: GoError): Option<GoError> {
    match e
    case Untrace(_, _, cause) => cause
    case Plain(_) => None
    case Wrapped(_, inner) => Some(inner)
  }

  /**
   * An `UntraceError`'s text is its message, followed by ": " and its
   * cause's text exactly when there is a cause, the one `Unwrap` gives.
   */
  lemma UntraceErrorText(kind: ErrorKind, message: string, cause: Option<GoError>)
    ensures var e := Untrace(kind, message, cause);
            && Unwrap(e) == cause
            && |ErrorText(e)| >= |message| && ErrorText(e)[..|message|] == message
            && (cause.None? <==> ErrorText(e) == message)
            && (cause.Some? ==> ErrorText(e)[|message|..] == ": " + ErrorText(cause.value))
  {
  }

  /** `NewAPIError(message, statusCode, response, err)`. */
  function NewAPIError(message: string, statusCode: int, response: string, err: Option<GoError>): (e: GoError)
    ensures e.Untrace? && e.kind == Api(statusCode, response) && e.message == message && Unwrap(e) == err
  {
    Untrace(Api(statusCode, response), message, err)
  }

  /** `NewValidationError(message, field)`: no cause. */
  function NewValidationError(message: string, field: string): (e: GoError)
    ensures e.Untrace? && e.kind == Validation(field) && Unwrap(e) == None
  {
    Untrace(Validation(field), message, None)
  }

  /** A validation error reads as exactly its message. */
  lemma ValidationErrorText(message: string, field: string)
    ensures ErrorText(NewValidationError(message, field)) == message
  {
  }

  /** `NewConfigurationError(message, err)`. */
  function NewConfigurationError(message: string, err: Option<GoError>): (e: GoError)
    ensures e.Untrace? && e.kind == Configuration && e.message == message && Unwrap(e) == err
  {
    Untrace(Configuration, message, err)
  }

  /** `NewInstrumentationError(message, provider, err)`. */
  function NewInstrumentationError(message: string, provider: string, err: Option<GoError>): (e: GoError)
    ensures e.Untrace? && e.kind == Instrumentation(provider) && e.message == message && Unwrap(e) == err
  {
    Untrace(Instrumentation(provider), message, err)
  }
}
