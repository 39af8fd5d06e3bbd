/**
 * The Go SDK's client (`client.go`): `Init` creates one client and keeps
 * it as the package's global instance, `Flush` and `Shutdown` act on a
 * client. Every client ever created is kept in a list and named by its
 * index, so that the pointer comparison `globalClient == c` becomes a
 * comparison of handles. What the OpenTelemetry provider's `ForceFlush`,
 * `Shutdown` and `otlptrace.New` return is passed in as a parameter.
 */
module GoClient {
  import opened Wrappers
  import opened GoErrors
  import opened GoConfig

  /** The fields of `untraceClient` the operations read or write. */
  datatype Client = Client(config: Config, shutdown: bool)

  /** All clients created so far, and the handle `globalClient` holds (nil is `None`). */
  datatype State = State(clients: seq<Client>, global: Option<nat>)

  /** The global client, when there is one, exists and has not been shut down. */
  predicate Valid(s: State) {
    s.global.Some? ==> s.global.value < |s.clients| && !s.clients[s.global.value].shutdown
  }

  /** The package state before any `Init`. */
  function Initial(): (s: State)
    ensures Valid(s) && s.global.None?
  {
    State([], None)
  }

  /** The HTTP client `CreateOTLPExporter(config)` configures: the endpoint and the headers it sends. */
  datatype OtlpClient = OtlpClient(endpoint: string, headers: map<string, string>)

  /** `CreateOTLPExporter(config)`: never fails. */
  function CreateOTLPExporter(c: Config): (r: Result<OtlpClient, GoError>)
    ensures r.Ok? && r.value.endpoint == c.baseUrl
    ensures r.value.headers.Keys == {"Authorization", "User-Agent"}
    ensures r.value.headers["Authorization"] == "Bearer " + c.apiKey
    ensures r.value.headers["User-Agent"] == "untrace-sdk-go/0.1.0"
  {
    Ok(OtlpClient(c.baseUrl, map["Authorization" := "Bearer " + c.apiKey, "User-Agent" := "untrace-sdk-go/0.1.0"]))
  }

  /**
   * `Init(config)`. `newErr` is what `otlptrace.New` returns. The result is
   * the new state and the client's handle or the error. `CreateOTLPExporter`
   * never fails, so its error branch is not part of the model.
   */
  function Init(s: State, c: Config, newErr: Option<GoError>): (State, Result<nat, GoError>) {
    if s.global.Some? then (s, Ok(s.global.value))
    else if Validate(c).Some? then (s, Err(Validate(c).value))
    else if newErr.Some? then (s, Err(Wrapped("failed to create OTLP exporter", newErr.value)))
    else
      var h := |s.clients|;
      (State(s.clients + [Client(c, false)], Some(h)), Ok(h))
  }

  /**
   * With a global client, `Init` hands it back unvalidated and changes
   * nothing. Without one, an invalid configuration or a failing exporter
   * leaves the state as it was and returns that error; otherwise a new,
   * running client with this configuration is appended and becomes the
   * global client. Validity is kept in every case.
   */
  lemma InitProperties(s: State, c: Config, newErr: Option<GoError>)
    requires Valid(s)
    ensures var (s', r) := Init(s, c, newErr);
            && Valid(s')
            && (s.global.Some? ==> s' == s && r == Ok(s.global.value))
            && (s.global.None? && Validate(c).Some? ==> s' == s && r == Err(Validate(c).value))
            && (s.global.None? && Validate(c).None? && newErr.Some? ==>
                  s' == s && r.Err? && ErrorText(r.error) == "failed to create OTLP exporter: " + ErrorText(newErr.value))
            && (s.global.None? && Validate(c).None? && newErr.None? ==>
                  && r == Ok(|s.clients|) && s'.global == Some(|s.clients|)
                  && s'.clients == s.clients + [Client(c, false)])
  {
  }

  /**
   * A value of Go's `Client` interface, which holds a dynamic type and a
   * value. `NilClient` is the nil interface. `UntraceClient(pointer)` holds
   * an `*untraceClient`, and that pointer is itself nil when `pointer` is
   * `None`. Only `NilClient` compares equal to nil.
   */
  datatype ClientRef = NilClient | UntraceClient(pointer: Option<nat>)

  /** An interface that is not nil but holds a nil `*untraceClient`. */
  predicate HoldsNilPointer(c: ClientRef) {
    c.UntraceClient? && c.pointer.None?
  }

  /**
   * The client a call of `Tracer()` or `Metrics()` through the interface
   * reaches. A nil interface or a nil pointer reaches none, and the call
   * panics: the method's first step locks the client's mutex.
   */
  function Receiver(c: ClientRef): (h: Option<nat>)
    ensures h.Some? <==> c != NilClient && !HoldsNilPointer(c)
    ensures h.Some? ==> c == UntraceClient(Some(h.value))
  {
    if c.UntraceClient? then c.pointer else None
  }

  /**
   * `GetInstance()`. `globalClient` is an `*untraceClient`, and the function
   * returns it as a `Client`. So the result is never the nil interface:
   * before `Init`, or after the global client is shut down, it holds a nil
   * pointer.
   */
  function GetInstance(s: State): (r: ClientRef)
    ensures r != NilClient
    ensures HoldsNilPointer(r) <==> s.global.None?
    ensures Receiver(r) == s.global
    ensures Valid(s) && Receiver(r).Some? ==>
              Receiver(r).value < |s.clients| && !s.clients[Receiver(r).value].shutdown
  {
    UntraceClient(s.global)
  }

  /**
   * `GetInstance()` as it is evidently meant to behave: nil when there is
   * no global client, and otherwise the global client.
   */
  function GetInstanceChecked(s: State): (r: ClientRef)
    ensures r == NilClient <==> s.global.None?
    ensures !HoldsNilPointer(r)
    ensures Receiver(r) == s.global
  {
    if s.global.None? then NilClient else UntraceClient(s.global)
  }

  /** The two agree whenever there is a global client, and only then. */
  lemma GetInstanceCheckedAgrees(s: State)
    ensures GetInstanceChecked(s) == GetInstance(s) <==> s.global.Some?
  {
  }

  /** A successful `Init` is what `GetInstance` returns afterwards. */
  lemma InitThenGetInstance(s: State, c: Config, newErr: Option<GoError>)
    requires Valid(s)
    ensures var (s', r) := Init(s, c, newErr);
            r.Ok? ==> GetInstance(s') == UntraceClient(Some(r.value))
  {
  }

  /**
   * A second `Init`, whatever its configuration, returns the client the
   * first one made and changes nothing.
   */
  lemma InitIdempotent(s: State, c1: Config, e1: Option<GoError>, c2: Config, e2: Option<GoError>)
    requires Valid(s)
    requires Init(s, c1, e1).1.Ok?
    ensures var (s1, r1) := Init(s, c1, e1);
            Init(s1, c2, e2) == (s1, r1)
  {
  }

  /** `c.Flush(ctx)` on client `h`; `flushErr` is what the provider's `ForceFlush` returns. */
  function Flush(s: State, h: nat, flushErr: Option<GoError>): Option<GoError>
    requires h < |s.clients|
  {
    if s.clients[h].shutdown then Some(Plain("client is shutdown"))
    else if flushErr.Some? then Some(Wrapped("failed to flush spans", flushErr.value))
    else None
  }

  /**
   * Flushing fails exactly when the client is shut down or the provider's
   * flush fails; a shut-down client does not reach the provider.
   */
  lemma FlushProperties(s: State, h: nat, flushErr: Option<GoError>)
    requires h < |s.clients|
    ensures Flush(s, h, flushErr).None? <==> !s.clients[h].shutdown && flushErr.None?
    ensures s.clients[h].shutdown ==> ErrorText(Flush(s, h, flushErr).value) == "client is shutdown"
    ensures !s.clients[h].shutdown && flushErr.Some? ==>
              ErrorText(Flush(s, h, flushErr).value) == "failed to flush spans: " + ErrorText(flushErr.value)
  {
  }

  /**
   * `c.Shutdown(ctx)` on client `h`; `shutdownErr` is what the provider's
   * `Shutdown` returns. The flush made before it has its error only
   * logged, so it does not appear.
   */
  function Shutdown(s: State, h: nat, shutdownErr: Option<GoError>): (State, Option<GoError>)
    requires h < |s.clients|
  {
    if s.clients[h].shutdown then (s, None)
    else if shutdownErr.Some? then (s, Some(Wrapped("failed to shutdown provider", shutdownErr.value)))
    else
      var global := if s.global == Some(h) then None else s.global;
      (State(s.clients[h := s.clients[h].(shutdown := true)], global), None)
  }

  /**
   * Shutting down a shut-down client is a no-op. A failing provider
   * shutdown leaves everything as it was and returns the wrapped error.
   * Otherwise the client is marked shut down, the global client is cleared
   * exactly when it is this one, and no other client changes. Validity is
   * kept in every case.
   */
  lemma ShutdownProperties(s: State, h: nat, shutdownErr: Option<GoError>)
    requires Valid(s) && h < |s.clients|
    ensures var (s', r) := Shutdown(s, h, shutdownErr);
            && Valid(s') && |s'.clients| == |s.clients|
            && (s.clients[h].shutdown ==> s' == s && r.None?)
            && (!s.clients[h].shutdown && shutdownErr.Some? ==>
                  s' == s && ErrorText(r.value) == "failed to shutdown provider: " + ErrorText(shutdownErr.value))
            && (!s.clients[h].shutdown && shutdownErr.None? ==>
                  && r.None? && s'.clients[h].shutdown && s'.clients[h].config == s.clients[h].config
                  && (s'.global.None? <==> s.global.None? || s.global == Some(h))
                  && (s.global != Some(h) ==> s'.global == s.global)
                  && forall i :: 0 <= i < |s.clients| && i != h ==> s'.clients[i] == s.clients[i])
  {
  }

  /** Once `Shutdown` has succeeded, calling it again returns nil and changes nothing. */
  lemma ShutdownIdempotent(s: State, h: nat, e1: Option<GoError>, e2: Option<GoError>)
    requires h < |s.clients|
    requires Shutdown(s, h, e1).1.None?
    ensures var s1 := Shutdown(s, h, e1).0;
            h < |s1.clients| && Shutdown(s1, h, e2) == (s1, None)
  {
  }

  /** After a successful `Shutdown`, every `Flush` of that client fails with "client is shutdown". */
  lemma FlushAfterShutdown(s: State, h: nat, e: Option<GoError>, flushErr: Option<GoError>)
    requires h < |s.clients|
    requires Shutdown(s, h, e).1.None?
    ensures var s1 := Shutdown(s, h, e).0;
            h < |s1.clients| && Flush(s1, h, flushErr) == Some(Plain("client is shutdown"))
  {
  }

  /**
   * Shutting down the global client lets the next `Init` with a valid
   * configuration make a fresh client: a different handle, running, with
   * the new configuration.
   */
  lemma {:induction false} InitAfterShutdown(s: State, c: Config, e: Option<GoError>)
    requires Valid(s) && s.global.Some?
    requires Validate(c).None?
    ensures var h := s.global.value;
            var s1 := Shutdown(s, h, None).0;
            var (s2, r) := Init(s1, c, e);
            && (e.None? ==> r.Ok? && r.value != h && s2.global == Some(r.value)
                            && s2.clients[r.value] == Client(c, false) && s2.clients[h].shutdown)
            && (e.Some? ==> r.Err? && s2 == s1 && HoldsNilPointer(GetInstance(s2)))
  {
    var h := s.global.value;
    ShutdownProperties(s, h, None);
    var s1 := Shutdown(s, h, None).0;
    assert s1.global.None?;
    InitProperties(s1, c, e);
  }
}
