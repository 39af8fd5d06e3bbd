/**
 * The OpenAI adapter (`instrumentation/openai.py`): it wraps the
 * constructors of `OpenAI` and `AsyncOpenAI` so that every new client has
 * its chat-completion, completion and embedding `create` methods wrapped,
 * and each wrapper traces one API call.
 */
module PyOpenAI {
  import opened Wrappers
  import opened PyValues
  import opened Spans
  import OrderedDict
  import opened PyAdapterBase
  import opened PyAdapterCall
  import PyTypes

  const Provider: string := "openai"
  const Classes: seq<string> := ["OpenAI", "AsyncOpenAI"]

  // ---------------------------------------------------------------------------
  // Instrumenting
  // ---------------------------------------------------------------------------

  function Instrument(a: Adapter, lib: Library): (Adapter, Library) {
    InstrumentConstructors(a, lib, Classes)
  }

  function Uninstrument(a: Adapter, lib: Library): (Adapter, Library)
    requires Saved(a, Classes)
  {
    UninstrumentConstructors(a, lib, Classes)
  }

  /**
   * Instrumenting a fresh adapter against an installed library wraps both
   * client constructors and marks it instrumented; a second `instrument`
   * changes nothing; `uninstrument` restores the library as it was. A
   * missing library leaves the adapter uninstrumented.
   */
  lemma InstrumentLifecycle(lib: Library)
    ensures var (a1, lib1) := Instrument(NewAdapter(Provider), lib);
            && Instrument(a1, lib1) == (a1, lib1)
            && (Importable(lib, Classes) ==>
                  && a1.instrumented
                  && lib1.inits["OpenAI"] == Wrapped(Provider, lib.inits["OpenAI"])
                  && lib1.inits["AsyncOpenAI"] == Wrapped(Provider, lib.inits["AsyncOpenAI"])
                  && Uninstrument(a1, lib1).1 == lib && !Uninstrument(a1, lib1).0.instrumented)
            && (!Importable(lib, Classes) ==> !a1.instrumented && lib1 == lib)
  {
    ConstructorLifecycle(NewAdapter(Provider), lib, Classes);
    assert "OpenAI" in Classes && "AsyncOpenAI" in Classes;
  }

  /**
   * A new client, as `_instrument_client_instance` sees it: `chat` is
   * absent, present without `completions`, or present with the `id()` of
   * its `completions` object; `completions` and `embeddings` are the
   * `id()`s of those objects when the client has them.
   */
  datatype Client = Client(chat: Option<Option<nat>>, completions: Option<nat>, embeddings: Option<nat>)

  function ChatCompletions(c: Client): Option<nat> {
    if c.chat.Some? then c.chat.value else None
  }

  /** The `_patch_method` calls the hook makes, each guarded by its `hasattr` checks. */
  function ClientTargets(c: Client): seq<Target> {
    [Target(ChatCompletions(c), "create", "_wrap_chat_completion_sync"),
     Target(c.completions, "create", "_wrap_completion_sync"),
     Target(c.embeddings, "create", "_wrap_embedding_sync")]
  }

  /** `_instrument_client_instance`, which the wrapped constructors run on every new client. */
  function InstrumentClientInstance(a: Adapter, slots: Slots, c: Client): (Adapter, Slots) {
    PatchAll(a, slots, ClientTargets(c))
  }

  /** The client's three namespace objects, where present, are distinct objects. */
  predicate DistinctObjects(c: Client) {
    && (ChatCompletions(c).Some? && c.completions.Some? ==> ChatCompletions(c).value != c.completions.value)
    && (ChatCompletions(c).Some? && c.embeddings.Some? ==> ChatCompletions(c).value != c.embeddings.value)
    && (c.completions.Some? && c.embeddings.Some? ==> c.completions.value != c.embeddings.value)
  }

  /**
   * The hook wraps `chat.completions.create` (only when the client has
   * both `chat` and `chat.completions`), `completions.create` and
   * `embeddings.create`, each with its own wrapper around the method that
   * was there, saving that method; it creates no slot and leaves every
   * other slot alone.
   */
  lemma InstrumentClientInstanceProperties(a: Adapter, slots: Slots, c: Client)
    requires DistinctObjects(c)
    ensures var (a', slots') := InstrumentClientInstance(a, slots, c);
            && slots'.Keys == slots.Keys
            && a'.instrumented == a.instrumented && a'.constructors == a.constructors
            && (ChatCompletions(c).Some? && (ChatCompletions(c).value, "create") in slots ==>
                  slots'[(ChatCompletions(c).value, "create")] ==
                  Wrapped("_wrap_chat_completion_sync", slots[(ChatCompletions(c).value, "create")]))
            && (c.completions.Some? && (c.completions.value, "create") in slots ==>
                  slots'[(c.completions.value, "create")] ==
                  Wrapped("_wrap_completion_sync", slots[(c.completions.value, "create")]))
            && (c.embeddings.Some? && (c.embeddings.value, "create") in slots ==>
                  slots'[(c.embeddings.value, "create")] ==
                  Wrapped("_wrap_embedding_sync", slots[(c.embeddings.value, "create")]))
            && (forall s :: s in slots && s.1 != "create" ==> slots'[s] == slots[s])
  {
    var ts := ClientTargets(c);
    PatchAllProperties(a, slots, ts);
    assert forall s: (nat, string) :: s.1 != "create" ==> forall i :: 0 <= i < |ts| ==> !Aims(ts[i], s);
    var (a', slots') := InstrumentClientInstance(a, slots, c);
    if ChatCompletions(c).Some? && (ChatCompletions(c).value, "create") in slots {
      assert ts[0].obj.Some?;
    }
    if c.completions.Some? && (c.completions.value, "create") in slots {
      assert ts[1].obj.Some?;
    }
    if c.embeddings.Some? && (c.embeddings.value, "create") in slots {
      assert ts[2].obj.Some?;
    }
  }

  // ---------------------------------------------------------------------------
  // Responses
  // ---------------------------------------------------------------------------

  /** One choice: `message.content` when it has a `message`, and its `text` when it has one. */
  datatype Choice = Choice(message: Option<PyValue>, text: Option<PyValue>)

  /**
   * A response, as far as the wrappers look at it: `choices`, `data` (the
   * length of each embedding vector), `model`, `id`, and the usage object
   * when it is there and truthy.
   */
  datatype Response = Response(choices: Option<seq<Choice>>, data: Option<seq<nat>>, model: Option<PyValue>,
                               id: Option<PyValue>, usage: Option<Usage>)

  /** The response the wrapper reads after the call: the returned one; after an exception there is none to read. */
  function ResponseOf(original: Outcome<Response>): Response {
    if original.Returned? then original.value else Response(None, None, None, None, None)
  }

  function FirstChoice(r: Response): Option<Choice> {
    if r.choices.Some? && |r.choices.value| > 0 then Some(r.choices.value[0]) else None
  }

  // ---------------------------------------------------------------------------
  // Chat completions
  // ---------------------------------------------------------------------------

  function ChatExtras(kwargs: Attrs): Attrs {
    [("temperature", KwargOr(kwargs, "temperature", PNone)), ("max_tokens", KwargOr(kwargs, "max_tokens", PNone)),
     ("stream", KwargOr(kwargs, "stream", PBool(false)))]
  }

  /** The request writes `traced_call` makes after `_set_request_attributes`: the messages. */
  function ChatParams(kwargs: Attrs): Writes {
    [("llm.request.messages", Some(PStr(Str(ExtractMessages(kwargs)))))]
  }

  function ChatRequest(kwargs: Attrs): Writes {
    RequestWrites(ExtractModel(kwargs), kwargs) + ChatParams(kwargs)
  }

  /** The first choice's message content, or else its text. */
  function ChatContent(r: Response): Option<PyValue> {
    var c := FirstChoice(r);
    if c.None? then None else if c.value.message.Some? then c.value.message else c.value.text
  }

  function ChatResponse(r: Response): Writes {
    [("llm.response.content", ChatContent(r))] + ResponseWrites(r.model, r.id)
  }

  /** `_wrap_chat_completion_sync`'s wrapper called with `kwargs`, the original method ending with `original`. */
  function Chat(current: Parent, kwargs: Attrs, original: Outcome<Response>): Call<Response> {
    AdapterCall(Provider, "openai.chat.completions.create", "chat", ExtractModel(kwargs), ChatExtras(kwargs), current,
                ChatRequest(kwargs), original, ChatResponse(ResponseOf(original)), ResponseOf(original).usage)
  }

  /**
   * The wrapper as written, which hands `_set_request_attributes` the
   * call's own keyword arguments, `model` among them when the caller
   * passes it.
   */
  function ChatAsWritten(current: Parent, kwargs: Attrs, original: Outcome<Response>): Call<Response> {
    var r := ResponseOf(original);
    AdapterCallAsWritten(Provider, "openai.chat.completions.create", "chat", ExtractModel(kwargs), ChatExtras(kwargs), current, kwargs, ChatParams(kwargs), original, ChatResponse(r), r.usage)
  }

  /**
   * As written, a call passing `model=` ends in `TypeError` before the API
   * is reached: no attribute, no event, no usage, an error status; the
   * response the API would have given is never seen. Without `model=` the
   * call is `Chat`, the wrapper with the corrected helper.
   */
  lemma ChatAsWrittenDefect(current: Parent, kwargs: Attrs, original: Outcome<Response>)
    ensures var c := ChatAsWritten(current, kwargs, original);
            && ("model" in OrderedDict.Keys(kwargs) ==>
                  && c.traced.outcome.Raised? && c.traced.outcome.error.className == "TypeError"
                  && c.usage == [] && Assignments(c.traced.log) == [] && Events(c.traced.log) == []
                  && LastStatus(c.traced.log).Some? && LastStatus(c.traced.log).value.0 == StatusError)
            && ("model" !in OrderedDict.Keys(kwargs) ==> c == Chat(current, kwargs, original))
  {
    var r := ResponseOf(original);
    AdapterCallAsWrittenDefect(Provider, "openai.chat.completions.create", "chat", ExtractModel(kwargs), ChatExtras(kwargs), current, kwargs, ChatParams(kwargs), original, ChatResponse(r), r.usage);
  }

  const ChatKeys: seq<string> :=
    ["llm.request.model", "llm.request.temperature", "llm.request.max_tokens", "llm.request.stream",
     "llm.request.messages", "llm.response.content", "llm.response.model", "llm.response.id"] + TokenKeys

  lemma ChatKeysAreDistinct()
    ensures PyTypes.Distinct(ChatKeys)
  {
  }

  lemma ChatKeysDistinct(kwargs: Attrs, r: Response)
    ensures PyTypes.Distinct(WriteKeys(ChatRequest(kwargs)) + WriteKeys(ChatResponse(r)) + TokenKeys)
  {
    ChatKeysAreDistinct();
    assert WriteKeys(ChatRequest(kwargs)) + WriteKeys(ChatResponse(r)) + TokenKeys == ChatKeys;
  }

  /**
   * A chat call: the response or exception passes through, and the client
   * span "openai.chat.completions.create" names the provider, the operation
   * "chat" and the requested model; the span ends once, OK exactly when the
   * call returned; usage is recorded exactly when a returned response carries
   * it.
   */
  lemma ChatSpanProperties(current: Parent, kwargs: Attrs, original: Outcome<Response>)
    ensures var c := Chat(current, kwargs, original);
            && c.traced.outcome == original && c.traced.span.name == "openai.chat.completions.create" && c.traced.span.kind == SpanKind.Client
            && OrderedDict.Get(c.traced.span.attributes, "llm.provider") == Some(PStr(Provider))
            && OrderedDict.Get(c.traced.span.attributes, "llm.operation.type") == Some(PStr("chat"))
            && OrderedDict.Get(c.traced.span.attributes, "llm.model") == Some(ExtractModel(kwargs))
            && CountEnds(c.traced.log) == 1 && (LastStatus(c.traced.log) == Some((StatusOk, None)) <==> original.Returned?)
            && c.usage == (if ResponseOf(original).usage.Some? then [UsageRecord(Provider, ExtractModel(kwargs), ResponseOf(original).usage.value)] else [])
  {
    AdapterCallShape(Provider, "openai.chat.completions.create", "chat", ExtractModel(kwargs), ChatExtras(kwargs), current, ChatRequest(kwargs), original, ChatResponse(ResponseOf(original)), ResponseOf(original).usage);
  }

  /**
   * The chat span records the requested model and the stringified messages.
   */
  lemma ChatRequestAttributes(current: Parent, kwargs: Attrs, original: Outcome<Response>)
    ensures var attrs := Assignments(Chat(current, kwargs, original).traced.log);
            && OrderedDict.Get(attrs, "llm.request.model") == Some(ExtractModel(kwargs))
            && OrderedDict.Get(attrs, "llm.request.messages") == Some(PStr(Str(ExtractMessages(kwargs))))
  {
    ChatRequestModel(current, kwargs, original);
    ChatRequestMessages(current, kwargs, original);
  }

  /** The `llm.request.model` part of `ChatRequestAttributes`. */
  lemma ChatRequestModel(current: Parent, kwargs: Attrs, original: Outcome<Response>)
    ensures var attrs := Assignments(Chat(current, kwargs, original).traced.log);
            OrderedDict.Get(attrs, "llm.request.model") == Some(ExtractModel(kwargs))
  {
    ChatKeysDistinct(kwargs, ResponseOf(original));
    KeyAt(Provider, "openai.chat.completions.create", "chat", ExtractModel(kwargs), ChatExtras(kwargs), current, ChatRequest(kwargs), original, ChatResponse(ResponseOf(original)), ResponseOf(original).usage, 0);
  }

  /** The `llm.request.messages` part of `ChatRequestAttributes`. */
  lemma ChatRequestMessages(current: Parent, kwargs: Attrs, original: Outcome<Response>)
    ensures var attrs := Assignments(Chat(current, kwargs, original).traced.log);
            OrderedDict.Get(attrs, "llm.request.messages") == Some(PStr(Str(ExtractMessages(kwargs))))
  {
    ChatKeysDistinct(kwargs, ResponseOf(original));
    KeyAt(Provider, "openai.chat.completions.create", "chat", ExtractModel(kwargs), ChatExtras(kwargs), current, ChatRequest(kwargs), original, ChatResponse(ResponseOf(original)), ResponseOf(original).usage, 4);
  }

  /**
   * After a return the span holds the first choice's content and the response
   * id; after an exception neither.
   */
  lemma ChatResponseAttributes(current: Parent, kwargs: Attrs, original: Outcome<Response>)
    ensures var attrs := Assignments(Chat(current, kwargs, original).traced.log);
            && OrderedDict.Get(attrs, "llm.response.content") == (if original.Returned? then ChatContent(original.value) else None)
            && OrderedDict.Get(attrs, "llm.response.id") == (if original.Returned? then original.value.id else None)
  {
    ChatResponseContent(current, kwargs, original);
    ChatResponseId(current, kwargs, original);
  }

  /** The `llm.response.content` part of `ChatResponseAttributes`. */
  lemma ChatResponseContent(current: Parent, kwargs: Attrs, original: Outcome<Response>)
    ensures var attrs := Assignments(Chat(current, kwargs, original).traced.log);
            OrderedDict.Get(attrs, "llm.response.content") == (if original.Returned? then ChatContent(original.value) else None)
  {
    ChatKeysDistinct(kwargs, ResponseOf(original));
    KeyAt(Provider, "openai.chat.completions.create", "chat", ExtractModel(kwargs), ChatExtras(kwargs), current, ChatRequest(kwargs), original, ChatResponse(ResponseOf(original)), ResponseOf(original).usage, 5);
  }

  /** The `llm.response.id` part of `ChatResponseAttributes`. */
  lemma ChatResponseId(current: Parent, kwargs: Attrs, original: Outcome<Response>)
    ensures var attrs := Assignments(Chat(current, kwargs, original).traced.log);
            OrderedDict.Get(attrs, "llm.response.id") == (if original.Returned? then original.value.id else None)
  {
    ChatKeysDistinct(kwargs, ResponseOf(original));
    KeyAt(Provider, "openai.chat.completions.create", "chat", ExtractModel(kwargs), ChatExtras(kwargs), current, ChatRequest(kwargs), original, ChatResponse(ResponseOf(original)), ResponseOf(original).usage, 7);
  }

  // ---------------------------------------------------------------------------
  // Completions
  // ---------------------------------------------------------------------------

  function CompletionExtras(kwargs: Attrs): Attrs {
    [("temperature", KwargOr(kwargs, "temperature", PNone)), ("max_tokens", KwargOr(kwargs, "max_tokens", PNone))]
  }

  /** The request writes `traced_call` makes after `_set_request_attributes`: the prompt. */
  function CompletionParams(kwargs: Attrs): Writes {
    [("llm.request.prompt", Some(ExtractPrompt(kwargs)))]
  }

  function CompletionRequest(kwargs: Attrs): Writes {
    RequestWrites(ExtractModel(kwargs), kwargs) + CompletionParams(kwargs)
  }

  /** The first choice's text. */
  function CompletionText(r: Response): Option<PyValue> {
    var c := FirstChoice(r);
    if c.None? then None else c.value.text
  }

  function CompletionResponse(r: Response): Writes {
    [("llm.response.text", CompletionText(r))] + ResponseWrites(r.model, r.id)
  }

  /** `_wrap_completion_sync`'s wrapper. */
  function Completion(current: Parent, kwargs: Attrs, original: Outcome<Response>): Call<Response> {
    AdapterCall(Provider, "openai.completions.create", "completion", ExtractModel(kwargs), CompletionExtras(kwargs),
                current, CompletionRequest(kwargs), original, CompletionResponse(ResponseOf(original)),
                ResponseOf(original).usage)
  }

  /**
   * The wrapper as written, which hands `_set_request_attributes` the
   * call's own keyword arguments, `model` among them when the caller
   * passes it.
   */
  function CompletionAsWritten(current: Parent, kwargs: Attrs, original: Outcome<Response>): Call<Response> {
    var r := ResponseOf(original);
    AdapterCallAsWritten(Provider, "openai.completions.create", "completion", ExtractModel(kwargs), CompletionExtras(kwargs), current, kwargs, CompletionParams(kwargs), original, CompletionResponse(r), r.usage)
  }

  /**
   * As written, a call passing `model=` ends in `TypeError` before the API
   * is reached: no attribute, no event, no usage, an error status; the
   * response the API would have given is never seen. Without `model=` the
   * call is `Completion`, the wrapper with the corrected helper.
   */
  lemma CompletionAsWrittenDefect(current: Parent, kwargs: Attrs, original: Outcome<Response>)
    ensures var c := CompletionAsWritten(current, kwargs, original);
            && ("model" in OrderedDict.Keys(kwargs) ==>
                  && c.traced.outcome.Raised? && c.traced.outcome.error.className == "TypeError"
                  && c.usage == [] && Assignments(c.traced.log) == [] && Events(c.traced.log) == []
                  && LastStatus(c.traced.log).Some? && LastStatus(c.traced.log).value.0 == StatusError)
            && ("model" !in OrderedDict.Keys(kwargs) ==> c == Completion(current, kwargs, original))
  {
    var r := ResponseOf(original);
    AdapterCallAsWrittenDefect(Provider, "openai.completions.create", "completion", ExtractModel(kwargs), CompletionExtras(kwargs), current, kwargs, CompletionParams(kwargs), original, CompletionResponse(r), r.usage);
  }

  const CompletionKeys: seq<string> :=
    ["llm.request.model", "llm.request.temperature", "llm.request.max_tokens", "llm.request.stream",
     "llm.request.prompt", "llm.response.text", "llm.response.model", "llm.response.id"] + TokenKeys

  lemma CompletionKeysAreDistinct()
    ensures PyTypes.Distinct(CompletionKeys)
  {
  }

  lemma CompletionKeysDistinct(kwargs: Attrs, r: Response)
    ensures PyTypes.Distinct(WriteKeys(CompletionRequest(kwargs)) + WriteKeys(CompletionResponse(r)) + TokenKeys)
  {
    CompletionKeysAreDistinct();
    assert WriteKeys(CompletionRequest(kwargs)) + WriteKeys(CompletionResponse(r)) + TokenKeys == CompletionKeys;
  }

  /**
   * A completion call: the span "openai.completions.create" with operation
   * "completion"; outcome, ending and usage as for every wrapped call.
   */
  lemma CompletionSpanProperties(current: Parent, kwargs: Attrs, original: Outcome<Response>)
    ensures var c := Completion(current, kwargs, original);
            && c.traced.outcome == original && c.traced.span.name == "openai.completions.create" && c.traced.span.kind == SpanKind.Client
            && OrderedDict.Get(c.traced.span.attributes, "llm.provider") == Some(PStr(Provider))
            && OrderedDict.Get(c.traced.span.attributes, "llm.operation.type") == Some(PStr("completion"))
            && OrderedDict.Get(c.traced.span.attributes, "llm.model") == Some(ExtractModel(kwargs))
            && CountEnds(c.traced.log) == 1 && (LastStatus(c.traced.log) == Some((StatusOk, None)) <==> original.Returned?)
            && c.usage == (if ResponseOf(original).usage.Some? then [UsageRecord(Provider, ExtractModel(kwargs), ResponseOf(original).usage.value)] else [])
  {
    AdapterCallShape(Provider, "openai.completions.create", "completion", ExtractModel(kwargs), CompletionExtras(kwargs), current, CompletionRequest(kwargs), original, CompletionResponse(ResponseOf(original)), ResponseOf(original).usage);
  }

  /**
   * The completion span records the requested model and the prompt as given.
   */
  lemma CompletionRequestAttributes(current: Parent, kwargs: Attrs, original: Outcome<Response>)
    ensures var attrs := Assignments(Completion(current, kwargs, original).traced.log);
            && OrderedDict.Get(attrs, "llm.request.model") == Some(ExtractModel(kwargs))
            && OrderedDict.Get(attrs, "llm.request.prompt") == Some(ExtractPrompt(kwargs))
  {
    CompletionRequestModel(current, kwargs, original);
    CompletionRequestPrompt(current, kwargs, original);
  }

  /** The `llm.request.model` part of `CompletionRequestAttributes`. */
  lemma CompletionRequestModel(current: Parent, kwargs: Attrs, original: Outcome<Response>)
    ensures var attrs := Assignments(Completion(current, kwargs, original).traced.log);
            OrderedDict.Get(attrs, "llm.request.model") == Some(ExtractModel(kwargs))
  {
    CompletionKeysDistinct(kwargs, ResponseOf(original));
    KeyAt(Provider, "openai.completions.create", "completion", ExtractModel(kwargs), CompletionExtras(kwargs), current, CompletionRequest(kwargs), original, CompletionResponse(ResponseOf(original)), ResponseOf(original).usage, 0);
  }

  /** The `llm.request.prompt` part of `CompletionRequestAttributes`. */
  lemma CompletionRequestPrompt(current: Parent, kwargs: Attrs, original: Outcome<Response>)
    ensures var attrs := Assignments(Completion(current, kwargs, original).traced.log);
            OrderedDict.Get(attrs, "llm.request.prompt") == Some(ExtractPrompt(kwargs))
  {
    CompletionKeysDistinct(kwargs, ResponseOf(original));
    KeyAt(Provider, "openai.completions.create", "completion", ExtractModel(kwargs), CompletionExtras(kwargs), current, CompletionRequest(kwargs), original, CompletionResponse(ResponseOf(original)), ResponseOf(original).usage, 4);
  }

  /**
   * After a return the span holds the first choice's text and the response
   * model; after an exception neither.
   */
  lemma CompletionResponseAttributes(current: Parent, kwargs: Attrs, original: Outcome<Response>)
    ensures var attrs := Assignments(Completion(current, kwargs, original).traced.log);
            && OrderedDict.Get(attrs, "llm.response.text") == (if original.Returned? then CompletionText(original.value) else None)
            && OrderedDict.Get(attrs, "llm.response.model") == (if original.Returned? then original.value.model else None)
  {
    CompletionResponseText(current, kwargs, original);
    CompletionResponseModel(current, kwargs, original);
  }

  /** The `llm.response.text` part of `CompletionResponseAttributes`. */
  lemma CompletionResponseText(current: Parent, kwargs: Attrs, original: Outcome<Response>)
    ensures var attrs := Assignments(Completion(current, kwargs, original).traced.log);
            OrderedDict.Get(attrs, "llm.response.text") == (if original.Returned? then CompletionText(original.value) else None)
  {
    CompletionKeysDistinct(kwargs, ResponseOf(original));
    KeyAt(Provider, "openai.completions.create", "completion", ExtractModel(kwargs), CompletionExtras(kwargs), current, CompletionRequest(kwargs), original, CompletionResponse(ResponseOf(original)), ResponseOf(original).usage, 5);
  }

  /** The `llm.response.model` part of `CompletionResponseAttributes`. */
  lemma CompletionResponseModel(current: Parent, kwargs: Attrs, original: Outcome<Response>)
    ensures var attrs := Assignments(Completion(current, kwargs, original).traced.log);
            OrderedDict.Get(attrs, "llm.response.model") == (if original.Returned? then original.value.model else None)
  {
    CompletionKeysDistinct(kwargs, ResponseOf(original));
    KeyAt(Provider, "openai.completions.create", "completion", ExtractModel(kwargs), CompletionExtras(kwargs), current, CompletionRequest(kwargs), original, CompletionResponse(ResponseOf(original)), ResponseOf(original).usage, 6);
  }

  // ---------------------------------------------------------------------------
  // Embeddings
  // ---------------------------------------------------------------------------

  /** The request writes `traced_call` makes after `_set_request_attributes`: the input. */
  function EmbeddingParams(kwargs: Attrs): Writes {
    [("llm.request.input", Some(PStr(Str(ExtractInput(kwargs)))))]
  }

  function EmbeddingRequest(kwargs: Attrs): Writes {
    RequestWrites(ExtractModel(kwargs), kwargs) + EmbeddingParams(kwargs)
  }

  /** The number of embeddings, when `data` is there and non-empty. */
  function EmbeddingsCount(r: Response): Option<PyValue> {
    if r.data.Some? && |r.data.value| > 0 then Some(PInt(|r.data.value|)) else None
  }

  /** The first embedding's length, when `data` is there and non-empty. */
  function EmbeddingDimension(r: Response): Option<PyValue> {
    if r.data.Some? && |r.data.value| > 0 then Some(PInt(r.data.value[0])) else None
  }

  function EmbeddingResponse(r: Response): Writes {
    [("llm.response.embeddings_count", EmbeddingsCount(r)), ("llm.response.embedding_dimension", EmbeddingDimension(r))]
      + ResponseWrites(r.model, r.id)
  }

  /** `_wrap_embedding_sync`'s wrapper. */
  function Embedding(current: Parent, kwargs: Attrs, original: Outcome<Response>): Call<Response> {
    AdapterCall(Provider, "openai.embeddings.create", "embedding", ExtractModel(kwargs), [], current,
                EmbeddingRequest(kwargs), original, EmbeddingResponse(ResponseOf(original)), ResponseOf(original).usage)
  }

  /**
   * The wrapper as written, which hands `_set_request_attributes` the
   * call's own keyword arguments, `model` among them when the caller
   * passes it.
   */
  function EmbeddingAsWritten(current: Parent, kwargs: Attrs, original: Outcome<Response>): Call<Response> {
    var r := ResponseOf(original);
    AdapterCallAsWritten(Provider, "openai.embeddings.create", "embedding", ExtractModel(kwargs), [], current, kwargs, EmbeddingParams(kwargs), original, EmbeddingResponse(r), r.usage)
  }

  /**
   * As written, a call passing `model=` ends in `TypeError` before the API
   * is reached: no attribute, no event, no usage, an error status; the
   * response the API would have given is never seen. Without `model=` the
   * call is `Embedding`, the wrapper with the corrected helper.
   */
  lemma EmbeddingAsWrittenDefect(current: Parent, kwargs: Attrs, original: Outcome<Response>)
    ensures var c := EmbeddingAsWritten(current, kwargs, original);
            && ("model" in OrderedDict.Keys(kwargs) ==>
                  && c.traced.outcome.Raised? && c.traced.outcome.error.className == "TypeError"
                  && c.usage == [] && Assignments(c.traced.log) == [] && Events(c.traced.log) == []
                  && LastStatus(c.traced.log).Some? && LastStatus(c.traced.log).value.0 == StatusError)
            && ("model" !in OrderedDict.Keys(kwargs) ==> c == Embedding(current, kwargs, original))
  {
    var r := ResponseOf(original);
    AdapterCallAsWrittenDefect(Provider, "openai.embeddings.create", "embedding", ExtractModel(kwargs), [], current, kwargs, EmbeddingParams(kwargs), original, EmbeddingResponse(r), r.usage);
  }

  const EmbeddingKeys: seq<string> :=
    ["llm.request.model", "llm.request.temperature", "llm.request.max_tokens", "llm.request.stream",
     "llm.request.input", "llm.response.embeddings_count", "llm.response.embedding_dimension",
     "llm.response.model", "llm.response.id"] + TokenKeys

  lemma EmbeddingKeysAreDistinct()
    ensures PyTypes.Distinct(EmbeddingKeys)
  {
  }

  lemma EmbeddingKeysDistinct(kwargs: Attrs, r: Response)
    ensures PyTypes.Distinct(WriteKeys(EmbeddingRequest(kwargs)) + WriteKeys(EmbeddingResponse(r)) + TokenKeys)
  {
    EmbeddingKeysAreDistinct();
    assert WriteKeys(EmbeddingRequest(kwargs)) + WriteKeys(EmbeddingResponse(r)) + TokenKeys == EmbeddingKeys;
  }

  /**
   * An embedding call: the span "openai.embeddings.create" with operation
   * "embedding"; outcome, ending and usage as for every wrapped call.
   */
  lemma EmbeddingSpanProperties(current: Parent, kwargs: Attrs, original: Outcome<Response>)
    ensures var c := Embedding(current, kwargs, original);
            && c.traced.outcome == original && c.traced.span.name == "openai.embeddings.create" && c.traced.span.kind == SpanKind.Client
            && OrderedDict.Get(c.traced.span.attributes, "llm.provider") == Some(PStr(Provider))
            && OrderedDict.Get(c.traced.span.attributes, "llm.operation.type") == Some(PStr("embedding"))
            && OrderedDict.Get(c.traced.span.attributes, "llm.model") == Some(ExtractModel(kwargs))
            && CountEnds(c.traced.log) == 1 && (LastStatus(c.traced.log) == Some((StatusOk, None)) <==> original.Returned?)
            && c.usage == (if ResponseOf(original).usage.Some? then [UsageRecord(Provider, ExtractModel(kwargs), ResponseOf(original).usage.value)] else [])
  {
    AdapterCallShape(Provider, "openai.embeddings.create", "embedding", ExtractModel(kwargs), [], current, EmbeddingRequest(kwargs), original, EmbeddingResponse(ResponseOf(original)), ResponseOf(original).usage);
  }

  /**
   * The embedding span records the requested model and the stringified input.
   */
  lemma EmbeddingRequestAttributes(current: Parent, kwargs: Attrs, original: Outcome<Response>)
    ensures var attrs := Assignments(Embedding(current, kwargs, original).traced.log);
            && OrderedDict.Get(attrs, "llm.request.model") == Some(ExtractModel(kwargs))
            && OrderedDict.Get(attrs, "llm.request.input") == Some(PStr(Str(ExtractInput(kwargs))))
  {
    EmbeddingRequestModel(current, kwargs, original);
    EmbeddingRequestInput(current, kwargs, original);
  }

  /** The `llm.request.model` part of `EmbeddingRequestAttributes`. */
  lemma EmbeddingRequestModel(current: Parent, kwargs: Attrs, original: Outcome<Response>)
    ensures var attrs := Assignments(Embedding(current, kwargs, original).traced.log);
            OrderedDict.Get(attrs, "llm.request.model") == Some(ExtractModel(kwargs))
  {
    EmbeddingKeysDistinct(kwargs, ResponseOf(original));
    KeyAt(Provider, "openai.embeddings.create", "embedding", ExtractModel(kwargs), [], current, EmbeddingRequest(kwargs), original, EmbeddingResponse(ResponseOf(original)), ResponseOf(original).usage, 0);
  }

  /** The `llm.request.input` part of `EmbeddingRequestAttributes`. */
  lemma EmbeddingRequestInput(current: Parent, kwargs: Attrs, original: Outcome<Response>)
    ensures var attrs := Assignments(Embedding(current, kwargs, original).traced.log);
            OrderedDict.Get(attrs, "llm.request.input") == Some(PStr(Str(ExtractInput(kwargs))))
  {
    EmbeddingKeysDistinct(kwargs, ResponseOf(original));
    KeyAt(Provider, "openai.embeddings.create", "embedding", ExtractModel(kwargs), [], current, EmbeddingRequest(kwargs), original, EmbeddingResponse(ResponseOf(original)), ResponseOf(original).usage, 4);
  }

  /**
   * After a return the span holds the number of embeddings and the first
   * one's length, each only when the data is non-empty; after an exception
   * neither.
   */
  lemma EmbeddingResponseAttributes(current: Parent, kwargs: Attrs, original: Outcome<Response>)
    ensures var attrs := Assignments(Embedding(current, kwargs, original).traced.log);
            && OrderedDict.Get(attrs, "llm.response.embeddings_count") == (if original.Returned? then EmbeddingsCount(original.value) else None)
            && OrderedDict.Get(attrs, "llm.response.embedding_dimension") == (if original.Returned? then EmbeddingDimension(original.value) else None)
  {
    EmbeddingCountAttribute(current, kwargs, original);
    EmbeddingDimensionAttribute(current, kwargs, original);
  }

  lemma EmbeddingCountAttribute(current: Parent, kwargs: Attrs, original: Outcome<Response>)
    ensures var attrs := Assignments(Embedding(current, kwargs, original).traced.log);
            OrderedDict.Get(attrs, "llm.response.embeddings_count") == (if original.Returned? then EmbeddingsCount(original.value) else None)
  {
    EmbeddingKeysDistinct(kwargs, ResponseOf(original));
    KeyAt(Provider, "openai.embeddings.create", "embedding", ExtractModel(kwargs), [], current, EmbeddingRequest(kwargs), original, EmbeddingResponse(ResponseOf(original)), ResponseOf(original).usage, 5);
  }

  lemma EmbeddingDimensionAttribute(current: Parent, kwargs: Attrs, original: Outcome<Response>)
    ensures var attrs := Assignments(Embedding(current, kwargs, original).traced.log);
            OrderedDict.Get(attrs, "llm.response.embedding_dimension") == (if original.Returned? then EmbeddingDimension(original.value) else None)
  {
    EmbeddingKeysDistinct(kwargs, ResponseOf(original));
    KeyAt(Provider, "openai.embeddings.create", "embedding", ExtractModel(kwargs), [], current, EmbeddingRequest(kwargs), original, EmbeddingResponse(ResponseOf(original)), ResponseOf(original).usage, 6);
  }
}
