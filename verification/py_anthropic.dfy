/**
 * The Anthropic adapter (`providers/anthropic.py`): it wraps the
 * constructors of `Anthropic` and `AsyncAnthropic` so that every new
 * client has `messages.create` and `completions.create` wrapped. Its usage
 * object counts `input_tokens` and `output_tokens`.
 */
module PyAnthropic {
  import opened Wrappers
  import opened PyValues
  import opened Spans
  import OrderedDict
  import opened PyAdapterBase
  import opened PyAdapterCall
  import PyTypes

  const Provider: string := "anthropic"
  const Classes: seq<string> := ["Anthropic", "AsyncAnthropic"]

  // ---------------------------------------------------------------------------
  // Instrumenting
  // ---------------------------------------------------------------------------

  function Instrument(a: Adapter, lib: Library): (Adapter, Library) {
    InstrumentConstructors(a, lib, Classes)
  }

  function Uninstrument(a: Adapter, lib: Library): (Adapter, Library)
    requires Saved(a, Classes)
  {
    UninstrumentConstructors(a, lib, Classes)
  }

  /**
   * Instrumenting a fresh adapter against an installed library wraps both
   * client constructors; a second `instrument` changes nothing;
   * `uninstrument` restores them. A missing library changes nothing.
   */
  lemma InstrumentLifecycle(lib: Library)
    ensures var (a1, lib1) := Instrument(NewAdapter(Provider), lib);
            && Instrument(a1, lib1) == (a1, lib1)
            && (Importable(lib, Classes) ==>
                  && a1.instrumented
                  && lib1.inits["Anthropic"] == Wrapped(Provider, lib.inits["Anthropic"])
                  && lib1.inits["AsyncAnthropic"] == Wrapped(Provider, lib.inits["AsyncAnthropic"])
                  && Uninstrument(a1, lib1).1 == lib && !Uninstrument(a1, lib1).0.instrumented)
            && (!Importable(lib, Classes) ==> !a1.instrumented && lib1 == lib)
  {
    ConstructorLifecycle(NewAdapter(Provider), lib, Classes);
    assert "Anthropic" in Classes && "AsyncAnthropic" in Classes;
  }

  /** A new client: the `id()`s of its `messages` and `completions` objects, when it has them. */
  datatype Client = Client(messages: Option<nat>, completions: Option<nat>)

  function ClientTargets(c: Client): seq<Target> {
    [Target(c.messages, "create", "_wrap_message_create_sync"), Target(c.completions, "create", "_wrap_completion_create_sync")]
  }

  function InstrumentClientInstance(a: Adapter, slots: Slots, c: Client): (Adapter, Slots) {
    PatchAll(a, slots, ClientTargets(c))
  }

  /**
   * The hook wraps `messages.create` and `completions.create`, each when
   * the client has it, and leaves every other slot alone.
   */
  lemma InstrumentClientInstanceProperties(a: Adapter, slots: Slots, c: Client)
    requires c.messages.Some? && c.completions.Some? ==> c.messages.value != c.completions.value
    ensures var (a', slots') := InstrumentClientInstance(a, slots, c);
            && slots'.Keys == slots.Keys
            && a'.instrumented == a.instrumented && a'.constructors == a.constructors
            && (c.messages.Some? && (c.messages.value, "create") in slots ==>
                  slots'[(c.messages.value, "create")] == Wrapped("_wrap_message_create_sync", slots[(c.messages.value, "create")]))
            && (c.completions.Some? && (c.completions.value, "create") in slots ==>
                  slots'[(c.completions.value, "create")] ==
                  Wrapped("_wrap_completion_create_sync", slots[(c.completions.value, "create")]))
            && (forall s :: s in slots && s.1 != "create" ==> slots'[s] == slots[s])
  {
    var ts := ClientTargets(c);
    PatchAllProperties(a, slots, ts);
    assert forall s: (nat, string), i :: 0 <= i < |ts| && s.1 != "create" ==> !Aims(ts[i], s);
    if c.messages.Some? {
      assert Aims(ts[0], (c.messages.value, "create"));
    }
    if c.completions.Some? {
      assert Aims(ts[1], (c.completions.value, "create"));
    }
  }

  // ---------------------------------------------------------------------------
  // Responses
  // ---------------------------------------------------------------------------

  /** A response's `content`: a list of blocks (each block's `text`, when it has one), or a single block. */
  datatype Content = Blocks(texts: seq<Option<PyValue>>) | Single(text: Option<PyValue>)

  /**
   * A response as the wrappers read it: `content`, `completion`, `model`,
   * `id`, `type`, `role`, `stop_reason`, and the usage object when it is
   * there and truthy, its `input_tokens` and `output_tokens` as prompt and
   * completion counts.
   */
  datatype Response = Response(content: Option<Content>, completion: Option<PyValue>, model: Option<PyValue>,
                               id: Option<PyValue>, kind: Option<PyValue>, role: Option<PyValue>,
                               stopReason: Option<PyValue>, usage: Option<Usage>)

  function ResponseOf(original: Outcome<Response>): Response {
    if original.Returned? then original.value else Response(None, None, None, None, None, None, None, None)
  }

  /** The text of the first block of a non-empty list, or of the single block. */
  function ContentText(r: Response): Option<PyValue> {
    match r.content
    case None => None
    case Some(Blocks(ts)) => if |ts| > 0 then ts[0] else None
    case Some(Single(t)) => t
  }

  /** The override of `_set_response_attributes`: the inherited model and id, then the id again, type, role and stop reason. */
  function AnthropicResponseWrites(r: Response): Writes {
    ResponseWrites(r.model, r.id)
      + [("llm.response.id", r.id), ("llm.response.type", r.kind), ("llm.response.role", r.role),
         ("llm.response.stop_reason", r.stopReason)]
  }

  /** The same writes with the repeated id written once. */
  function ReducedResponseWrites(r: Response): Writes {
    [("llm.response.model", r.model), ("llm.response.id", r.id), ("llm.response.type", r.kind),
     ("llm.response.role", r.role), ("llm.response.stop_reason", r.stopReason)]
  }

  /** Writing the id a second time, with the same value, changes no attribute. */
  lemma ResponseWritesReduced(pre: Writes, r: Response, k: string)
    ensures LastValue(pre + AnthropicResponseWrites(r), k) == LastValue(pre + ReducedResponseWrites(r), k)
  {
    var model, id := ("llm.response.model", r.model), ("llm.response.id", r.id);
    var rest := [("llm.response.type", r.kind), ("llm.response.role", r.role), ("llm.response.stop_reason", r.stopReason)];
    assert pre + AnthropicResponseWrites(r) == (pre + [model]) + [id] + ([id] + rest);
    assert pre + ReducedResponseWrites(r) == (pre + [model]) + ([id] + rest);
    LastValueRepeatedRun(pre + [model], [id], [id] + rest, k);
  }

  // ---------------------------------------------------------------------------
  // messages.create
  // ---------------------------------------------------------------------------

  function MessageExtras(kwargs: Attrs): Attrs {
    [("temperature", KwargOr(kwargs, "temperature", PNone)), ("max_tokens", KwargOr(kwargs, "max_tokens", PNone)),
     ("stream", KwargOr(kwargs, "stream", PBool(false)))]
  }

  /** The request writes `traced_call` makes after `_set_request_attributes`: the messages. */
  function MessageParams(kwargs: Attrs): Writes {
    [("llm.request.messages", Some(PStr(Str(ExtractMessages(kwargs)))))]
  }

  function MessageRequest(kwargs: Attrs): Writes {
    RequestWrites(ExtractModel(kwargs), kwargs) + MessageParams(kwargs)
  }

  function MessageHead(r: Response): Writes {
    [("llm.response.content", ContentText(r))] + ReducedResponseWrites(r)
  }

  function MessageResponse(r: Response): Writes {
    [("llm.response.content", ContentText(r))] + AnthropicResponseWrites(r)
  }

  /** `_wrap_message_create_sync`'s wrapper called with `kwargs`, the original method ending with `original`. */
  function Message(current: Parent, kwargs: Attrs, original: Outcome<Response>): Call<Response> {
    var r := ResponseOf(original);
    AdapterCall(Provider, "anthropic.messages.create", "chat", ExtractModel(kwargs), MessageExtras(kwargs), current,
                MessageRequest(kwargs), original, MessageResponse(r), r.usage)
  }

  /**
   * The wrapper as written, which hands `_set_request_attributes` the
   * call's own keyword arguments, `model` among them when the caller
   * passes it.
   */
  function MessageAsWritten(current: Parent, kwargs: Attrs, original: Outcome<Response>): Call<Response> {
    var r := ResponseOf(original);
    AdapterCallAsWritten(Provider, "anthropic.messages.create", "chat", ExtractModel(kwargs), MessageExtras(kwargs), current, kwargs, MessageParams(kwargs), original, MessageResponse(r), r.usage)
  }

  /**
   * As written, a call passing `model=` ends in `TypeError` before the API
   * is reached: no attribute, no event, no usage, an error status; the
   * response the API would have given is never seen. Without `model=` the
   * call is `Message`, the wrapper with the corrected helper.
   */
  lemma MessageAsWrittenDefect(current: Parent, kwargs: Attrs, original: Outcome<Response>)
    ensures var c := MessageAsWritten(current, kwargs, original);
            && ("model" in OrderedDict.Keys(kwargs) ==>
                  && c.traced.outcome.Raised? && c.traced.outcome.error.className == "TypeError"
                  && c.usage == [] && Assignments(c.traced.log) == [] && Events(c.traced.log) == []
                  && LastStatus(c.traced.log).Some? && LastStatus(c.traced.log).value.0 == StatusError)
            && ("model" !in OrderedDict.Keys(kwargs) ==> c == Message(current, kwargs, original))
  {
    var r := ResponseOf(original);
    AdapterCallAsWrittenDefect(Provider, "anthropic.messages.create", "chat", ExtractModel(kwargs), MessageExtras(kwargs), current, kwargs, MessageParams(kwargs), original, MessageResponse(r), r.usage);
  }

  const MessageKeys: seq<string> :=
    ["llm.request.model", "llm.request.temperature", "llm.request.max_tokens", "llm.request.stream",
     "llm.request.messages", "llm.response.content", "llm.response.model", "llm.response.id", "llm.response.type",
     "llm.response.role", "llm.response.stop_reason"] + TokenKeys

  lemma MessageKeysAreDistinct()
    ensures PyTypes.Distinct(MessageKeys)
  {
  }

  lemma MessageKeysDistinct(kwargs: Attrs, r: Response)
    ensures PyTypes.Distinct(WriteKeys(MessageRequest(kwargs)) + WriteKeys(MessageHead(r)) + TokenKeys)
  {
    MessageKeysAreDistinct();
    assert WriteKeys(MessageRequest(kwargs)) + WriteKeys(MessageHead(r)) + TokenKeys == MessageKeys;
  }

  lemma MessageReduced(r: Response, k: string)
    ensures LastValue(MessageResponse(r), k) == LastValue(MessageHead(r) + [], k)
  {
    ResponseWritesReduced([("llm.response.content", ContentText(r))], r, k);
    assert MessageHead(r) + [] == MessageHead(r);
  }

  /**
   * A traced messages.create call: the response or exception passes through;
   * the client span "anthropic.messages.create" names the provider, the
   * operation "chat" and the model; it ends once, OK exactly when the call
   * returned; usage is recorded exactly when a returned response has a truthy
   * usage object.
   */
  lemma MessageSpanProperties(current: Parent, kwargs: Attrs, original: Outcome<Response>)
    ensures var c := Message(current, kwargs, original);
            && c.traced.outcome == original && c.traced.span.name == "anthropic.messages.create" && c.traced.span.kind == SpanKind.Client
            && OrderedDict.Get(c.traced.span.attributes, "llm.provider") == Some(PStr(Provider))
            && OrderedDict.Get(c.traced.span.attributes, "llm.operation.type") == Some(PStr("chat"))
            && OrderedDict.Get(c.traced.span.attributes, "llm.model") == Some(ExtractModel(kwargs))
            && CountEnds(c.traced.log) == 1 && (LastStatus(c.traced.log) == Some((StatusOk, None)) <==> original.Returned?)
            && c.usage == (if ResponseOf(original).usage.Some? then [UsageRecord(Provider, ExtractModel(kwargs), ResponseOf(original).usage.value)] else [])
  {
    AdapterCallShape(Provider, "anthropic.messages.create", "chat", ExtractModel(kwargs), MessageExtras(kwargs), current, MessageRequest(kwargs), original, MessageResponse(ResponseOf(original)), ResponseOf(original).usage);
  }

  /**
   * The span records the model and the messages as text.
   */
  lemma MessageRequestAttributes(current: Parent, kwargs: Attrs, original: Outcome<Response>)
    ensures var attrs := Assignments(Message(current, kwargs, original).traced.log);
            && OrderedDict.Get(attrs, "llm.request.model") == Some(ExtractModel(kwargs))
            && OrderedDict.Get(attrs, "llm.request.messages") == Some(PStr(Str(ExtractMessages(kwargs))))
  {
    MessageRequestModel(current, kwargs, original);
    MessageRequestMessages(current, kwargs, original);
  }

  /** The `llm.request.model` part of `MessageRequestAttributes`. */
  lemma MessageRequestModel(current: Parent, kwargs: Attrs, original: Outcome<Response>)
    ensures var attrs := Assignments(Message(current, kwargs, original).traced.log);
            OrderedDict.Get(attrs, "llm.request.model") == Some(ExtractModel(kwargs))
  {
    MessageKeysDistinct(kwargs, ResponseOf(original));
    MessageReduced(ResponseOf(original), "llm.request.model");
    KeyAtEquivalent(Provider, "anthropic.messages.create", "chat", ExtractModel(kwargs), MessageExtras(kwargs), current, MessageRequest(kwargs), original, MessageResponse(ResponseOf(original)), MessageRequest(kwargs), MessageHead(ResponseOf(original)), [], ResponseOf(original).usage, 0);
  }

  /** The `llm.request.messages` part of `MessageRequestAttributes`. */
  lemma MessageRequestMessages(current: Parent, kwargs: Attrs, original: Outcome<Response>)
    ensures var attrs := Assignments(Message(current, kwargs, original).traced.log);
            OrderedDict.Get(attrs, "llm.request.messages") == Some(PStr(Str(ExtractMessages(kwargs))))
  {
    MessageKeysDistinct(kwargs, ResponseOf(original));
    MessageReduced(ResponseOf(original), "llm.request.messages");
    KeyAtEquivalent(Provider, "anthropic.messages.create", "chat", ExtractModel(kwargs), MessageExtras(kwargs), current, MessageRequest(kwargs), original, MessageResponse(ResponseOf(original)), MessageRequest(kwargs), MessageHead(ResponseOf(original)), [], ResponseOf(original).usage, 4);
  }

  /**
   * After a return the span holds the first content block's text and the stop
   * reason, each when present; after an exception neither.
   */
  lemma MessageResponseAttributes(current: Parent, kwargs: Attrs, original: Outcome<Response>)
    ensures var attrs := Assignments(Message(current, kwargs, original).traced.log);
            && OrderedDict.Get(attrs, "llm.response.content") == (if original.Returned? then ContentText(original.value) else None)
            && OrderedDict.Get(attrs, "llm.response.stop_reason") == (if original.Returned? then original.value.stopReason else None)
  {
    MessageResponseContent(current, kwargs, original);
    MessageResponseStopReason(current, kwargs, original);
  }

  /** The `llm.response.content` part of `MessageResponseAttributes`. */
  lemma MessageResponseContent(current: Parent, kwargs: Attrs, original: Outcome<Response>)
    ensures var attrs := Assignments(Message(current, kwargs, original).traced.log);
            OrderedDict.Get(attrs, "llm.response.content") == (if original.Returned? then ContentText(original.value) else None)
  {
    MessageKeysDistinct(kwargs, ResponseOf(original));
    MessageReduced(ResponseOf(original), "llm.response.content");
    KeyAtEquivalent(Provider, "anthropic.messages.create", "chat", ExtractModel(kwargs), MessageExtras(kwargs), current, MessageRequest(kwargs), original, MessageResponse(ResponseOf(original)), MessageRequest(kwargs), MessageHead(ResponseOf(original)), [], ResponseOf(original).usage, 5);
  }

  /** The `llm.response.stop_reason` part of `MessageResponseAttributes`. */
  lemma MessageResponseStopReason(current: Parent, kwargs: Attrs, original: Outcome<Response>)
    ensures var attrs := Assignments(Message(current, kwargs, original).traced.log);
            OrderedDict.Get(attrs, "llm.response.stop_reason") == (if original.Returned? then original.value.stopReason else None)
  {
    MessageKeysDistinct(kwargs, ResponseOf(original));
    MessageReduced(ResponseOf(original), "llm.response.stop_reason");
    KeyAtEquivalent(Provider, "anthropic.messages.create", "chat", ExtractModel(kwargs), MessageExtras(kwargs), current, MessageRequest(kwargs), original, MessageResponse(ResponseOf(original)), MessageRequest(kwargs), MessageHead(ResponseOf(original)), [], ResponseOf(original).usage, 10);
  }

  /**
   * After a return with a truthy usage object, the span carries each
   * count it has and one usage record maps input and output tokens to
   * prompt and completion tokens.
   */
  lemma MessageTokens(current: Parent, kwargs: Attrs, original: Outcome<Response>)
    requires original.Returned? && original.value.usage.Some?
    ensures var c := Message(current, kwargs, original);
            var u := original.value.usage.value;
            && (u.promptTokens.Some? ==> OrderedDict.Get(Assignments(c.traced.log), "llm.prompt.tokens") == AsInt(u.promptTokens))
            && (u.completionTokens.Some? ==>
                  OrderedDict.Get(Assignments(c.traced.log), "llm.completion.tokens") == AsInt(u.completionTokens))
            && (u.totalTokens.Some? ==> OrderedDict.Get(Assignments(c.traced.log), "llm.total.tokens") == AsInt(u.totalTokens))
            && c.usage == [UsageRecord(Provider, ExtractModel(kwargs), u)]
  {
    var r := ResponseOf(original);
    AdapterCallTokens(Provider, "anthropic.messages.create", "chat", ExtractModel(kwargs), MessageExtras(kwargs), current,
                      MessageRequest(kwargs), original, MessageResponse(r), r.usage);
    AdapterCallShape(Provider, "anthropic.messages.create", "chat", ExtractModel(kwargs), MessageExtras(kwargs), current,
                     MessageRequest(kwargs), original, MessageResponse(r), r.usage);
  }

  // ---------------------------------------------------------------------------
  // completions.create
  // ---------------------------------------------------------------------------

  function CompletionExtras(kwargs: Attrs): Attrs {
    [("temperature", KwargOr(kwargs, "temperature", PNone)), ("max_tokens", KwargOr(kwargs, "max_tokens", PNone))]
  }

  /** The request writes `traced_call` makes after `_set_request_attributes`: the prompt. */
  function CompletionParams(kwargs: Attrs): Writes {
    [("llm.request.prompt", Some(ExtractPrompt(kwargs)))]
  }

  function CompletionRequest(kwargs: Attrs): Writes {
    RequestWrites(ExtractModel(kwargs), kwargs) + CompletionParams(kwargs)
  }

  function CompletionHead(r: Response): Writes {
    [("llm.response.text", r.completion)] + ReducedResponseWrites(r)
  }

  function CompletionResponse(r: Response): Writes {
    [("llm.response.text", r.completion)] + AnthropicResponseWrites(r)
  }

  /** `_wrap_completion_create_sync`'s wrapper called with `kwargs`, the original method ending with `original`. */
  function Completion(current: Parent, kwargs: Attrs, original: Outcome<Response>): Call<Response> {
    var r := ResponseOf(original);
    AdapterCall(Provider, "anthropic.completions.create", "completion", ExtractModel(kwargs), CompletionExtras(kwargs),
                current, CompletionRequest(kwargs), original, CompletionResponse(r), r.usage)
  }

  /**
   * The wrapper as written, which hands `_set_request_attributes` the
   * call's own keyword arguments, `model` among them when the caller
   * passes it.
   */
  function CompletionAsWritten(current: Parent, kwargs: Attrs, original: Outcome<Response>): Call<Response> {
    var r := ResponseOf(original);
    AdapterCallAsWritten(Provider, "anthropic.completions.create", "completion", ExtractModel(kwargs), CompletionExtras(kwargs), current, kwargs, CompletionParams(kwargs), original, CompletionResponse(r), r.usage)
  }

  /**
   * As written, a call passing `model=` ends in `TypeError` before the API
   * is reached: no attribute, no event, no usage, an error status; the
   * response the API would have given is never seen. Without `model=` the
   * call is `Completion`, the wrapper with the corrected helper.
   */
  lemma CompletionAsWrittenDefect(current: Parent, kwargs: Attrs, original: Outcome<Response>)
    ensures var c := CompletionAsWritten(current, kwargs, original);
            && ("model" in OrderedDict.Keys(kwargs) ==>
                  && c.traced.outcome.Raised? && c.traced.outcome.error.className == "TypeError"
                  && c.usage == [] && Assignments(c.traced.log) == [] && Events(c.traced.log) == []
                  && LastStatus(c.traced.log).Some? && LastStatus(c.traced.log).value.0 == StatusError)
            && ("model" !in OrderedDict.Keys(kwargs) ==> c == Completion(current, kwargs, original))
  {
    var r := ResponseOf(original);
    AdapterCallAsWrittenDefect(Provider, "anthropic.completions.create", "completion", ExtractModel(kwargs), CompletionExtras(kwargs), current, kwargs, CompletionParams(kwargs), original, CompletionResponse(r), r.usage);
  }

  const CompletionKeys: seq<string> :=
    ["llm.request.model", "llm.request.temperature", "llm.request.max_tokens", "llm.request.stream",
     "llm.request.prompt", "llm.response.text", "llm.response.model", "llm.response.id", "llm.response.type",
     "llm.response.role", "llm.response.stop_reason"] + TokenKeys

  lemma CompletionKeysAreDistinct()
    ensures PyTypes.Distinct(CompletionKeys)
  {
  }

  lemma CompletionKeysDistinct(kwargs: Attrs, r: Response)
    ensures PyTypes.Distinct(WriteKeys(CompletionRequest(kwargs)) + WriteKeys(CompletionHead(r)) + TokenKeys)
  {
    CompletionKeysAreDistinct();
    assert WriteKeys(CompletionRequest(kwargs)) + WriteKeys(CompletionHead(r)) + TokenKeys == CompletionKeys;
  }

  lemma CompletionReduced(r: Response, k: string)
    ensures LastValue(CompletionResponse(r), k) == LastValue(CompletionHead(r) + [], k)
  {
    ResponseWritesReduced([("llm.response.text", r.completion)], r, k);
    assert CompletionHead(r) + [] == CompletionHead(r);
  }

  /**
   * A traced completions.create call: the response or exception passes
   * through; the client span "anthropic.completions.create" has operation
   * "completion" and the model; it ends once, OK exactly when the call
   * returned; usage is recorded exactly when a returned response has a truthy
   * usage object.
   */
  lemma CompletionSpanProperties(current: Parent, kwargs: Attrs, original: Outcome<Response>)
    ensures var c := Completion(current, kwargs, original);
            && c.traced.outcome == original && c.traced.span.name == "anthropic.completions.create" && c.traced.span.kind == SpanKind.Client
            && OrderedDict.Get(c.traced.span.attributes, "llm.provider") == Some(PStr(Provider))
            && OrderedDict.Get(c.traced.span.attributes, "llm.operation.type") == Some(PStr("completion"))
            && OrderedDict.Get(c.traced.span.attributes, "llm.model") == Some(ExtractModel(kwargs))
            && CountEnds(c.traced.log) == 1 && (LastStatus(c.traced.log) == Some((StatusOk, None)) <==> original.Returned?)
            && c.usage == (if ResponseOf(original).usage.Some? then [UsageRecord(Provider, ExtractModel(kwargs), ResponseOf(original).usage.value)] else [])
  {
    AdapterCallShape(Provider, "anthropic.completions.create", "completion", ExtractModel(kwargs), CompletionExtras(kwargs), current, CompletionRequest(kwargs), original, CompletionResponse(ResponseOf(original)), ResponseOf(original).usage);
  }

  /**
   * The span records the model and the prompt, "" when the call passes none.
   */
  lemma CompletionRequestAttributes(current: Parent, kwargs: Attrs, original: Outcome<Response>)
    ensures var attrs := Assignments(Completion(current, kwargs, original).traced.log);
            && OrderedDict.Get(attrs, "llm.request.model") == Some(ExtractModel(kwargs))
            && OrderedDict.Get(attrs, "llm.request.prompt") == Some(ExtractPrompt(kwargs))
  {
    CompletionRequestModel(current, kwargs, original);
    CompletionRequestPrompt(current, kwargs, original);
  }

  /** The `llm.request.model` part of `CompletionRequestAttributes`. */
  lemma CompletionRequestModel(current: Parent, kwargs: Attrs, original: Outcome<Response>)
    ensures var attrs := Assignments(Completion(current, kwargs, original).traced.log);
            OrderedDict.Get(attrs, "llm.request.model") == Some(ExtractModel(kwargs))
  {
    CompletionKeysDistinct(kwargs, ResponseOf(original));
    CompletionReduced(ResponseOf(original), "llm.request.model");
    KeyAtEquivalent(Provider, "anthropic.completions.create", "completion", ExtractModel(kwargs), CompletionExtras(kwargs), current, CompletionRequest(kwargs), original, CompletionResponse(ResponseOf(original)), CompletionRequest(kwargs), CompletionHead(ResponseOf(original)), [], ResponseOf(original).usage, 0);
  }

  /** The `llm.request.prompt` part of `CompletionRequestAttributes`. */
  lemma CompletionRequestPrompt(current: Parent, kwargs: Attrs, original: Outcome<Response>)
    ensures var attrs := Assignments(Completion(current, kwargs, original).traced.log);
            OrderedDict.Get(attrs, "llm.request.prompt") == Some(ExtractPrompt(kwargs))
  {
    CompletionKeysDistinct(kwargs, ResponseOf(original));
    CompletionReduced(ResponseOf(original), "llm.request.prompt");
    KeyAtEquivalent(Provider, "anthropic.completions.create", "completion", ExtractModel(kwargs), CompletionExtras(kwargs), current, CompletionRequest(kwargs), original, CompletionResponse(ResponseOf(original)), CompletionRequest(kwargs), CompletionHead(ResponseOf(original)), [], ResponseOf(original).usage, 4);
  }

  /**
   * After a return the span holds the completion text and the response id,
   * each when present; after an exception neither.
   */
  lemma CompletionResponseAttributes(current: Parent, kwargs: Attrs, original: Outcome<Response>)
    ensures var attrs := Assignments(Completion(current, kwargs, original).traced.log);
            && OrderedDict.Get(attrs, "llm.response.text") == (if original.Returned? then original.value.completion else None)
            && OrderedDict.Get(attrs, "llm.response.id") == (if original.Returned? then original.value.id else None)
  {
    CompletionResponseText(current, kwargs, original);
    CompletionResponseId(current, kwargs, original);
  }

  /** The `llm.response.text` part of `CompletionResponseAttributes`. */
  lemma CompletionResponseText(current: Parent, kwargs: Attrs, original: Outcome<Response>)
    ensures var attrs := Assignments(Completion(current, kwargs, original).traced.log);
            OrderedDict.Get(attrs, "llm.response.text") == (if original.Returned? then original.value.completion else None)
  {
    CompletionKeysDistinct(kwargs, ResponseOf(original));
    CompletionReduced(ResponseOf(original), "llm.response.text");
    KeyAtEquivalent(Provider, "anthropic.completions.create", "completion", ExtractModel(kwargs), CompletionExtras(kwargs), current, CompletionRequest(kwargs), original, CompletionResponse(ResponseOf(original)), CompletionRequest(kwargs), CompletionHead(ResponseOf(original)), [], ResponseOf(original).usage, 5);
  }

  /** The `llm.response.id` part of `CompletionResponseAttributes`. */
  lemma CompletionResponseId(current: Parent, kwargs: Attrs, original: Outcome<Response>)
    ensures var attrs := Assignments(Completion(current, kwargs, original).traced.log);
            OrderedDict.Get(attrs, "llm.response.id") == (if original.Returned? then original.value.id else None)
  {
    CompletionKeysDistinct(kwargs, ResponseOf(original));
    CompletionReduced(ResponseOf(original), "llm.response.id");
    KeyAtEquivalent(Provider, "anthropic.completions.create", "completion", ExtractModel(kwargs), CompletionExtras(kwargs), current, CompletionRequest(kwargs), original, CompletionResponse(ResponseOf(original)), CompletionRequest(kwargs), CompletionHead(ResponseOf(original)), [], ResponseOf(original).usage, 7);
  }
}
