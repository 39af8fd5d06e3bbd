/**
 * The Azure OpenAI adapter (`providers/microsoft.py`): it wraps the
 * constructors of `AzureOpenAI` and `AsyncAzureOpenAI`. A new client is
 * hooked exactly as an OpenAI client is, and its responses are OpenAI
 * responses, so the model reuses those; the spans are named "azure.openai.*"
 * and also carry the API version, the endpoint, and the response's
 * `object` and `created`.
 */
module PyMicrosoft {
  import opened Wrappers
  import opened PyValues
  import opened Spans
  import OrderedDict
  import opened PyAdapterBase
  import opened PyAdapterCall
  import PyTypes
  import PyOpenAI

  const Provider: string := "microsoft"
  const Classes: seq<string> := ["AzureOpenAI", "AsyncAzureOpenAI"]

  // ---------------------------------------------------------------------------
  // Instrumenting
  // ---------------------------------------------------------------------------

  function Instrument(a: Adapter, lib: Library): (Adapter, Library) {
    InstrumentConstructors(a, lib, Classes)
  }

  function Uninstrument(a: Adapter, lib: Library): (Adapter, Library)
    requires Saved(a, Classes)
  {
    UninstrumentConstructors(a, lib, Classes)
  }

  /**
   * Instrumenting a fresh adapter against an installed library wraps both
   * client constructors; a second `instrument` changes nothing;
   * `uninstrument` restores them. A missing library changes nothing.
   */
  lemma InstrumentLifecycle(lib: Library)
    ensures var (a1, lib1) := Instrument(NewAdapter(Provider), lib);
            && Instrument(a1, lib1) == (a1, lib1)
            && (Importable(lib, Classes) ==>
                  && a1.instrumented
                  && lib1.inits["AzureOpenAI"] == Wrapped(Provider, lib.inits["AzureOpenAI"])
                  && lib1.inits["AsyncAzureOpenAI"] == Wrapped(Provider, lib.inits["AsyncAzureOpenAI"])
                  && Uninstrument(a1, lib1).1 == lib && !Uninstrument(a1, lib1).0.instrumented)
            && (!Importable(lib, Classes) ==> !a1.instrumented && lib1 == lib)
  {
    ConstructorLifecycle(NewAdapter(Provider), lib, Classes);
    assert "AzureOpenAI" in Classes && "AsyncAzureOpenAI" in Classes;
  }

  /**
   * `_instrument_client_instance` patches the same three `create` methods
   * with wrappers of the same names as the OpenAI adapter's.
   */
  function InstrumentClientInstance(a: Adapter, slots: Slots, c: PyOpenAI.Client): (Adapter, Slots) {
    PatchAll(a, slots, PyOpenAI.ClientTargets(c))
  }

  /**
   * The hook wraps `chat.completions.create` (only when the client has
   * both `chat` and `chat.completions`), `completions.create` and
   * `embeddings.create`, and leaves every other slot alone.
   */
  lemma InstrumentClientInstanceProperties(a: Adapter, slots: Slots, c: PyOpenAI.Client)
    requires PyOpenAI.DistinctObjects(c)
    ensures var (a', slots') := InstrumentClientInstance(a, slots, c);
            var chat := PyOpenAI.ChatCompletions(c);
            && slots'.Keys == slots.Keys
            && a'.instrumented == a.instrumented && a'.constructors == a.constructors
            && (chat.Some? && (chat.value, "create") in slots ==>
                  slots'[(chat.value, "create")] == Wrapped("_wrap_chat_completion_sync", slots[(chat.value, "create")]))
            && (c.completions.Some? && (c.completions.value, "create") in slots ==>
                  slots'[(c.completions.value, "create")] == Wrapped("_wrap_completion_sync", slots[(c.completions.value, "create")]))
            && (c.embeddings.Some? && (c.embeddings.value, "create") in slots ==>
                  slots'[(c.embeddings.value, "create")] == Wrapped("_wrap_embedding_sync", slots[(c.embeddings.value, "create")]))
            && (forall s :: s in slots && s.1 != "create" ==> slots'[s] == slots[s])
  {
    PyOpenAI.InstrumentClientInstanceProperties(a, slots, c);
  }

  // ---------------------------------------------------------------------------
  // Responses
  // ---------------------------------------------------------------------------

  /** An Azure response: an OpenAI response with its `object` and `created`, when it has them. */
  datatype Response = Response(base: PyOpenAI.Response, objectType: Option<PyValue>, created: Option<PyValue>)

  function ResponseOf(original: Outcome<Response>): Response {
    if original.Returned? then original.value else Response(PyOpenAI.Response(None, None, None, None, None), None, None)
  }

  /**
   * The override of `_set_response_attributes`: the inherited model and
   * id, then model and id again, `object` and `created`.
   */
  function AzureResponseWrites(r: Response): Writes {
    ResponseWrites(r.base.model, r.base.id) + ReducedResponseWrites(r)
  }

  /** The same writes with model and id written once. */
  function ReducedResponseWrites(r: Response): Writes {
    [("llm.response.model", r.base.model), ("llm.response.id", r.base.id), ("llm.response.object", r.objectType),
     ("llm.response.created", r.created)]
  }

  /** Writing model and id a second time, with the same values, changes no attribute. */
  lemma ResponseWritesReduced(pre: Writes, r: Response, k: string)
    ensures LastValue(pre + AzureResponseWrites(r), k) == LastValue(pre + ReducedResponseWrites(r), k)
  {
    var twice := ResponseWrites(r.base.model, r.base.id);
    assert ReducedResponseWrites(r)[..|twice|] == twice;
    assert pre + AzureResponseWrites(r) == pre + twice + ReducedResponseWrites(r);
    LastValueRepeatedRun(pre, twice, ReducedResponseWrites(r), k);
  }

  /** The Azure request attributes, each set only when the call passes it. */
  function AzureRequestWrites(kwargs: Attrs): Writes {
    [("llm.request.api_version", OrderedDict.Get(kwargs, "api_version")),
     ("llm.request.azure_endpoint", OrderedDict.Get(kwargs, "azure_endpoint"))]
  }

  // ---------------------------------------------------------------------------
  // chat.completions.create
  // ---------------------------------------------------------------------------

  /** The request writes after the helper's: OpenAI's, then the Azure ones. */
  function ChatParams(kwargs: Attrs): Writes {
    PyOpenAI.ChatParams(kwargs) + AzureRequestWrites(kwargs)
  }

  function ChatRequest(kwargs: Attrs): Writes {
    RequestWrites(ExtractModel(kwargs), kwargs) + ChatParams(kwargs)
  }

  function ChatHead(r: Response): Writes {
    [("llm.response.content", PyOpenAI.ChatContent(r.base))] + ReducedResponseWrites(r)
  }

  function ChatResponse(r: Response): Writes {
    [("llm.response.content", PyOpenAI.ChatContent(r.base))] + AzureResponseWrites(r)
  }

  /** `_wrap_chat_completion_sync`'s wrapper called with `kwargs`, the original method ending with `original`. */
  function Chat(current: Parent, kwargs: Attrs, original: Outcome<Response>): Call<Response> {
    var r := ResponseOf(original);
    AdapterCall(Provider, "azure.openai.chat.completions.create", "chat", ExtractModel(kwargs), PyOpenAI.ChatExtras(kwargs),
                current, ChatRequest(kwargs), original, ChatResponse(r), r.base.usage)
  }

  /**
   * The wrapper as written, which hands `_set_request_attributes` the
   * call's own keyword arguments, `model` among them when the caller
   * passes it.
   */
  function ChatAsWritten(current: Parent, kwargs: Attrs, original: Outcome<Response>): Call<Response> {
    var r := ResponseOf(original);
    AdapterCallAsWritten(Provider, "azure.openai.chat.completions.create", "chat", ExtractModel(kwargs), PyOpenAI.ChatExtras(kwargs), current, kwargs, ChatParams(kwargs), original, ChatResponse(r), r.base.usage)
  }

  /**
   * As written, a call passing `model=` ends in `TypeError` before the API
   * is reached: no attribute, no event, no usage, an error status; the
   * response the API would have given is never seen. Without `model=` the
   * call is `Chat`, the wrapper with the corrected helper.
   */
  lemma ChatAsWrittenDefect(current: Parent, kwargs: Attrs, original: Outcome<Response>)
    ensures var c := ChatAsWritten(current, kwargs, original);
            && ("model" in OrderedDict.Keys(kwargs) ==>
                  && c.traced.outcome.Raised? && c.traced.outcome.error.className == "TypeError"
                  && c.usage == [] && Assignments(c.traced.log) == [] && Events(c.traced.log) == []
                  && LastStatus(c.traced.log).Some? && LastStatus(c.traced.log).value.0 == StatusError)
            && ("model" !in OrderedDict.Keys(kwargs) ==> c == Chat(current, kwargs, original))
  {
    var r := ResponseOf(original);
    AdapterCallAsWrittenDefect(Provider, "azure.openai.chat.completions.create", "chat", ExtractModel(kwargs), PyOpenAI.ChatExtras(kwargs), current, kwargs, ChatParams(kwargs), original, ChatResponse(r), r.base.usage);
  }

  const ChatKeys: seq<string> :=
    ["llm.request.model", "llm.request.temperature", "llm.request.max_tokens", "llm.request.stream",
     "llm.request.messages", "llm.request.api_version", "llm.request.azure_endpoint", "llm.response.content",
     "llm.response.model", "llm.response.id", "llm.response.object", "llm.response.created"] + TokenKeys

  lemma ChatKeysAreDistinct()
    ensures PyTypes.Distinct(ChatKeys)
  {
  }

  lemma ChatKeysDistinct(kwargs: Attrs, r: Response)
    ensures PyTypes.Distinct(WriteKeys(ChatRequest(kwargs)) + WriteKeys(ChatHead(r)) + TokenKeys)
  {
    ChatKeysAreDistinct();
    assert WriteKeys(ChatRequest(kwargs)) + WriteKeys(ChatHead(r)) + TokenKeys == ChatKeys;
  }

  lemma ChatReduced(r: Response, k: string)
    ensures LastValue(ChatResponse(r), k) == LastValue(ChatHead(r) + [], k)
  {
    ResponseWritesReduced([("llm.response.content", PyOpenAI.ChatContent(r.base))], r, k);
    assert ChatHead(r) + [] == ChatHead(r);
  }

  /**
   * A traced Azure chat completion: the response or exception passes through;
   * the client span "azure.openai.chat.completions.create" names the provider
   * "microsoft", the operation "chat" and the model; it ends once, OK exactly
   * when the call returned; usage is recorded exactly when a returned
   * response has a truthy usage object.
   */
  lemma ChatSpanProperties(current: Parent, kwargs: Attrs, original: Outcome<Response>)
    ensures var c := Chat(current, kwargs, original);
            && c.traced.outcome == original && c.traced.span.name == "azure.openai.chat.completions.create" && c.traced.span.kind == SpanKind.Client
            && OrderedDict.Get(c.traced.span.attributes, "llm.provider") == Some(PStr(Provider))
            && OrderedDict.Get(c.traced.span.attributes, "llm.operation.type") == Some(PStr("chat"))
            && OrderedDict.Get(c.traced.span.attributes, "llm.model") == Some(ExtractModel(kwargs))
            && CountEnds(c.traced.log) == 1 && (LastStatus(c.traced.log) == Some((StatusOk, None)) <==> original.Returned?)
            && c.usage == (if ResponseOf(original).base.usage.Some? then [UsageRecord(Provider, ExtractModel(kwargs), ResponseOf(original).base.usage.value)] else [])
  {
    AdapterCallShape(Provider, "azure.openai.chat.completions.create", "chat", ExtractModel(kwargs), PyOpenAI.ChatExtras(kwargs), current, ChatRequest(kwargs), original, ChatResponse(ResponseOf(original)), ResponseOf(original).base.usage);
  }

  /**
   * The span records the API version and the endpoint exactly when the call
   * passes them.
   */
  lemma ChatRequestAttributes(current: Parent, kwargs: Attrs, original: Outcome<Response>)
    ensures var attrs := Assignments(Chat(current, kwargs, original).traced.log);
            && OrderedDict.Get(attrs, "llm.request.api_version") == OrderedDict.Get(kwargs, "api_version")
            && OrderedDict.Get(attrs, "llm.request.azure_endpoint") == OrderedDict.Get(kwargs, "azure_endpoint")
  {
    ChatRequestApiVersion(current, kwargs, original);
    ChatRequestAzureEndpoint(current, kwargs, original);
  }

  /** The `llm.request.api_version` part of `ChatRequestAttributes`. */
  lemma ChatRequestApiVersion(current: Parent, kwargs: Attrs, original: Outcome<Response>)
    ensures var attrs := Assignments(Chat(current, kwargs, original).traced.log);
            OrderedDict.Get(attrs, "llm.request.api_version") == OrderedDict.Get(kwargs, "api_version")
  {
    ChatKeysDistinct(kwargs, ResponseOf(original));
    ChatReduced(ResponseOf(original), "llm.request.api_version");
    KeyAtEquivalent(Provider, "azure.openai.chat.completions.create", "chat", ExtractModel(kwargs), PyOpenAI.ChatExtras(kwargs), current, ChatRequest(kwargs), original, ChatResponse(ResponseOf(original)), ChatRequest(kwargs), ChatHead(ResponseOf(original)), [], ResponseOf(original).base.usage, 5);
  }

  /** The `llm.request.azure_endpoint` part of `ChatRequestAttributes`. */
  lemma ChatRequestAzureEndpoint(current: Parent, kwargs: Attrs, original: Outcome<Response>)
    ensures var attrs := Assignments(Chat(current, kwargs, original).traced.log);
            OrderedDict.Get(attrs, "llm.request.azure_endpoint") == OrderedDict.Get(kwargs, "azure_endpoint")
  {
    ChatKeysDistinct(kwargs, ResponseOf(original));
    ChatReduced(ResponseOf(original), "llm.request.azure_endpoint");
    KeyAtEquivalent(Provider, "azure.openai.chat.completions.create", "chat", ExtractModel(kwargs), PyOpenAI.ChatExtras(kwargs), current, ChatRequest(kwargs), original, ChatResponse(ResponseOf(original)), ChatRequest(kwargs), ChatHead(ResponseOf(original)), [], ResponseOf(original).base.usage, 6);
  }

  /**
   * After a return the span holds the first choice's content and the
   * response's object type, each when present; after an exception neither.
   */
  lemma ChatResponseAttributes(current: Parent, kwargs: Attrs, original: Outcome<Response>)
    ensures var attrs := Assignments(Chat(current, kwargs, original).traced.log);
            && OrderedDict.Get(attrs, "llm.response.content") == (if original.Returned? then PyOpenAI.ChatContent(original.value.base) else None)
            && OrderedDict.Get(attrs, "llm.response.object") == (if original.Returned? then original.value.objectType else None)
  {
    ChatResponseContent(current, kwargs, original);
    ChatResponseObject(current, kwargs, original);
  }

  /** The `llm.response.content` part of `ChatResponseAttributes`. */
  lemma ChatResponseContent(current: Parent, kwargs: Attrs, original: Outcome<Response>)
    ensures var attrs := Assignments(Chat(current, kwargs, original).traced.log);
            OrderedDict.Get(attrs, "llm.response.content") == (if original.Returned? then PyOpenAI.ChatContent(original.value.base) else None)
  {
    ChatKeysDistinct(kwargs, ResponseOf(original));
    ChatReduced(ResponseOf(original), "llm.response.content");
    KeyAtEquivalent(Provider, "azure.openai.chat.completions.create", "chat", ExtractModel(kwargs), PyOpenAI.ChatExtras(kwargs), current, ChatRequest(kwargs), original, ChatResponse(ResponseOf(original)), ChatRequest(kwargs), ChatHead(ResponseOf(original)), [], ResponseOf(original).base.usage, 7);
  }

  /** The `llm.response.object` part of `ChatResponseAttributes`. */
  lemma ChatResponseObject(current: Parent, kwargs: Attrs, original: Outcome<Response>)
    ensures var attrs := Assignments(Chat(current, kwargs, original).traced.log);
            OrderedDict.Get(attrs, "llm.response.object") == (if original.Returned? then original.value.objectType else None)
  {
    ChatKeysDistinct(kwargs, ResponseOf(original));
    ChatReduced(ResponseOf(original), "llm.response.object");
    KeyAtEquivalent(Provider, "azure.openai.chat.completions.create", "chat", ExtractModel(kwargs), PyOpenAI.ChatExtras(kwargs), current, ChatRequest(kwargs), original, ChatResponse(ResponseOf(original)), ChatRequest(kwargs), ChatHead(ResponseOf(original)), [], ResponseOf(original).base.usage, 10);
  }

  // ---------------------------------------------------------------------------
  // completions.create
  // ---------------------------------------------------------------------------

  /** The request writes after the helper's: OpenAI's, then the Azure ones. */
  function CompletionParams(kwargs: Attrs): Writes {
    PyOpenAI.CompletionParams(kwargs) + AzureRequestWrites(kwargs)
  }

  function CompletionRequest(kwargs: Attrs): Writes {
    RequestWrites(ExtractModel(kwargs), kwargs) + CompletionParams(kwargs)
  }

  function CompletionHead(r: Response): Writes {
    [("llm.response.text", PyOpenAI.CompletionText(r.base))] + ReducedResponseWrites(r)
  }

  function CompletionResponse(r: Response): Writes {
    [("llm.response.text", PyOpenAI.CompletionText(r.base))] + AzureResponseWrites(r)
  }

  /** `_wrap_completion_sync`'s wrapper called with `kwargs`, the original method ending with `original`. */
  function Completion(current: Parent, kwargs: Attrs, original: Outcome<Response>): Call<Response> {
    var r := ResponseOf(original);
    AdapterCall(Provider, "azure.openai.completions.create", "completion", ExtractModel(kwargs),
                PyOpenAI.CompletionExtras(kwargs), current, CompletionRequest(kwargs), original, CompletionResponse(r),
                r.base.usage)
  }

  /**
   * The wrapper as written, which hands `_set_request_attributes` the
   * call's own keyword arguments, `model` among them when the caller
   * passes it.
   */
  function CompletionAsWritten(current: Parent, kwargs: Attrs, original: Outcome<Response>): Call<Response> {
    var r := ResponseOf(original);
    AdapterCallAsWritten(Provider, "azure.openai.completions.create", "completion", ExtractModel(kwargs), PyOpenAI.CompletionExtras(kwargs), current, kwargs, CompletionParams(kwargs), original, CompletionResponse(r), r.base.usage)
  }

  /**
   * As written, a call passing `model=` ends in `TypeError` before the API
   * is reached: no attribute, no event, no usage, an error status; the
   * response the API would have given is never seen. Without `model=` the
   * call is `Completion`, the wrapper with the corrected helper.
   */
  lemma CompletionAsWrittenDefect(current: Parent, kwargs: Attrs, original: Outcome<Response>)
    ensures var c := CompletionAsWritten(current, kwargs, original);
            && ("model" in OrderedDict.Keys(kwargs) ==>
                  && c.traced.outcome.Raised? && c.traced.outcome.error.className == "TypeError"
                  && c.usage == [] && Assignments(c.traced.log) == [] && Events(c.traced.log) == []
                  && LastStatus(c.traced.log).Some? && LastStatus(c.traced.log).value.0 == StatusError)
            && ("model" !in OrderedDict.Keys(kwargs) ==> c == Completion(current, kwargs, original))
  {
    var r := ResponseOf(original);
    AdapterCallAsWrittenDefect(Provider, "azure.openai.completions.create", "completion", ExtractModel(kwargs), PyOpenAI.CompletionExtras(kwargs), current, kwargs, CompletionParams(kwargs), original, CompletionResponse(r), r.base.usage);
  }

  const CompletionKeys: seq<string> :=
    ["llm.request.model", "llm.request.temperature", "llm.request.max_tokens", "llm.request.stream",
     "llm.request.prompt", "llm.request.api_version", "llm.request.azure_endpoint", "llm.response.text",
     "llm.response.model", "llm.response.id", "llm.response.object", "llm.response.created"] + TokenKeys

  lemma CompletionKeysAreDistinct()
    ensures PyTypes.Distinct(CompletionKeys)
  {
  }

  lemma CompletionKeysDistinct(kwargs: Attrs, r: Response)
    ensures PyTypes.Distinct(WriteKeys(CompletionRequest(kwargs)) + WriteKeys(CompletionHead(r)) + TokenKeys)
  {
    CompletionKeysAreDistinct();
    assert WriteKeys(CompletionRequest(kwargs)) + WriteKeys(CompletionHead(r)) + TokenKeys == CompletionKeys;
  }

  lemma CompletionReduced(r: Response, k: string)
    ensures LastValue(CompletionResponse(r), k) == LastValue(CompletionHead(r) + [], k)
  {
    ResponseWritesReduced([("llm.response.text", PyOpenAI.CompletionText(r.base))], r, k);
    assert CompletionHead(r) + [] == CompletionHead(r);
  }

  /**
   * A traced Azure completion: the span "azure.openai.completions.create"
   * with operation "completion"; outcome, ending and usage as for every
   * wrapped call.
   */
  lemma CompletionSpanProperties(current: Parent, kwargs: Attrs, original: Outcome<Response>)
    ensures var c := Completion(current, kwargs, original);
            && c.traced.outcome == original && c.traced.span.name == "azure.openai.completions.create" && c.traced.span.kind == SpanKind.Client
            && OrderedDict.Get(c.traced.span.attributes, "llm.provider") == Some(PStr(Provider))
            && OrderedDict.Get(c.traced.span.attributes, "llm.operation.type") == Some(PStr("completion"))
            && OrderedDict.Get(c.traced.span.attributes, "llm.model") == Some(ExtractModel(kwargs))
            && CountEnds(c.traced.log) == 1 && (LastStatus(c.traced.log) == Some((StatusOk, None)) <==> original.Returned?)
            && c.usage == (if ResponseOf(original).base.usage.Some? then [UsageRecord(Provider, ExtractModel(kwargs), ResponseOf(original).base.usage.value)] else [])
  {
    AdapterCallShape(Provider, "azure.openai.completions.create", "completion", ExtractModel(kwargs), PyOpenAI.CompletionExtras(kwargs), current, CompletionRequest(kwargs), original, CompletionResponse(ResponseOf(original)), ResponseOf(original).base.usage);
  }

  /**
   * The span records the prompt and, exactly when the call passes one, the
   * API version.
   */
  lemma CompletionRequestAttributes(current: Parent, kwargs: Attrs, original: Outcome<Response>)
    ensures var attrs := Assignments(Completion(current, kwargs, original).traced.log);
            && OrderedDict.Get(attrs, "llm.request.prompt") == Some(ExtractPrompt(kwargs))
            && OrderedDict.Get(attrs, "llm.request.api_version") == OrderedDict.Get(kwargs, "api_version")
  {
    CompletionRequestPrompt(current, kwargs, original);
    CompletionRequestApiVersion(current, kwargs, original);
  }

  /** The `llm.request.prompt` part of `CompletionRequestAttributes`. */
  lemma CompletionRequestPrompt(current: Parent, kwargs: Attrs, original: Outcome<Response>)
    ensures var attrs := Assignments(Completion(current, kwargs, original).traced.log);
            OrderedDict.Get(attrs, "llm.request.prompt") == Some(ExtractPrompt(kwargs))
  {
    CompletionKeysDistinct(kwargs, ResponseOf(original));
    CompletionReduced(ResponseOf(original), "llm.request.prompt");
    KeyAtEquivalent(Provider, "azure.openai.completions.create", "completion", ExtractModel(kwargs), PyOpenAI.CompletionExtras(kwargs), current, CompletionRequest(kwargs), original, CompletionResponse(ResponseOf(original)), CompletionRequest(kwargs), CompletionHead(ResponseOf(original)), [], ResponseOf(original).base.usage, 4);
  }

  /** The `llm.request.api_version` part of `CompletionRequestAttributes`. */
  lemma CompletionRequestApiVersion(current: Parent, kwargs: Attrs, original: Outcome<Response>)
    ensures var attrs := Assignments(Completion(current, kwargs, original).traced.log);
            OrderedDict.Get(attrs, "llm.request.api_version") == OrderedDict.Get(kwargs, "api_version")
  {
    CompletionKeysDistinct(kwargs, ResponseOf(original));
    CompletionReduced(ResponseOf(original), "llm.request.api_version");
    KeyAtEquivalent(Provider, "azure.openai.completions.create", "completion", ExtractModel(kwargs), PyOpenAI.CompletionExtras(kwargs), current, CompletionRequest(kwargs), original, CompletionResponse(ResponseOf(original)), CompletionRequest(kwargs), CompletionHead(ResponseOf(original)), [], ResponseOf(original).base.usage, 5);
  }

  /**
   * After a return the span holds the first choice's text and the creation
   * time, each when present; after an exception neither.
   */
  lemma CompletionResponseAttributes(current: Parent, kwargs: Attrs, original: Outcome<Response>)
    ensures var attrs := Assignments(Completion(current, kwargs, original).traced.log);
            && OrderedDict.Get(attrs, "llm.response.text") == (if original.Returned? then PyOpenAI.CompletionText(original.value.base) else None)
            && OrderedDict.Get(attrs, "llm.response.created") == (if original.Returned? then original.value.created else None)
  {
    CompletionResponseText(current, kwargs, original);
    CompletionResponseCreated(current, kwargs, original);
  }

  /** The `llm.response.text` part of `CompletionResponseAttributes`. */
  lemma CompletionResponseText(current: Parent, kwargs: Attrs, original: Outcome<Response>)
    ensures var attrs := Assignments(Completion(current, kwargs, original).traced.log);
            OrderedDict.Get(attrs, "llm.response.text") == (if original.Returned? then PyOpenAI.CompletionText(original.value.base) else None)
  {
    CompletionKeysDistinct(kwargs, ResponseOf(original));
    CompletionReduced(ResponseOf(original), "llm.response.text");
    KeyAtEquivalent(Provider, "azure.openai.completions.create", "completion", ExtractModel(kwargs), PyOpenAI.CompletionExtras(kwargs), current, CompletionRequest(kwargs), original, CompletionResponse(ResponseOf(original)), CompletionRequest(kwargs), CompletionHead(ResponseOf(original)), [], ResponseOf(original).base.usage, 7);
  }

  /** The `llm.response.created` part of `CompletionResponseAttributes`. */
  lemma CompletionResponseCreated(current: Parent, kwargs: Attrs, original: Outcome<Response>)
    ensures var attrs := Assignments(Completion(current, kwargs, original).traced.log);
            OrderedDict.Get(attrs, "llm.response.created") == (if original.Returned? then original.value.created else None)
  {
    CompletionKeysDistinct(kwargs, ResponseOf(original));
    CompletionReduced(ResponseOf(original), "llm.response.created");
    KeyAtEquivalent(Provider, "azure.openai.completions.create", "completion", ExtractModel(kwargs), PyOpenAI.CompletionExtras(kwargs), current, CompletionRequest(kwargs), original, CompletionResponse(ResponseOf(original)), CompletionRequest(kwargs), CompletionHead(ResponseOf(original)), [], ResponseOf(original).base.usage, 11);
  }

  // ---------------------------------------------------------------------------
  // embeddings.create
  // ---------------------------------------------------------------------------

  /** The request writes after the helper's: OpenAI's, then the Azure ones. */
  function EmbeddingParams(kwargs: Attrs): Writes {
    PyOpenAI.EmbeddingParams(kwargs) + AzureRequestWrites(kwargs)
  }

  function EmbeddingRequest(kwargs: Attrs): Writes {
    RequestWrites(ExtractModel(kwargs), kwargs) + EmbeddingParams(kwargs)
  }

  function EmbeddingHead(r: Response): Writes {
    [("llm.response.embeddings_count", PyOpenAI.EmbeddingsCount(r.base)),
     ("llm.response.embedding_dimension", PyOpenAI.EmbeddingDimension(r.base))] + ReducedResponseWrites(r)
  }

  function EmbeddingResponse(r: Response): Writes {
    [("llm.response.embeddings_count", PyOpenAI.EmbeddingsCount(r.base)),
     ("llm.response.embedding_dimension", PyOpenAI.EmbeddingDimension(r.base))] + AzureResponseWrites(r)
  }

  /** `_wrap_embedding_sync`'s wrapper called with `kwargs`, the original method ending with `original`. */
  function Embedding(current: Parent, kwargs: Attrs, original: Outcome<Response>): Call<Response> {
    var r := ResponseOf(original);
    AdapterCall(Provider, "azure.openai.embeddings.create", "embedding", ExtractModel(kwargs), [], current,
                EmbeddingRequest(kwargs), original, EmbeddingResponse(r), r.base.usage)
  }

  /**
   * The wrapper as written, which hands `_set_request_attributes` the
   * call's own keyword arguments, `model` among them when the caller
   * passes it.
   */
  function EmbeddingAsWritten(current: Parent, kwargs: Attrs, original: Outcome<Response>): Call<Response> {
    var r := ResponseOf(original);
    AdapterCallAsWritten(Provider, "azure.openai.embeddings.create", "embedding", ExtractModel(kwargs), [], current, kwargs, EmbeddingParams(kwargs), original, EmbeddingResponse(r), r.base.usage)
  }

  /**
   * As written, a call passing `model=` ends in `TypeError` before the API
   * is reached: no attribute, no event, no usage, an error status; the
   * response the API would have given is never seen. Without `model=` the
   * call is `Embedding`, the wrapper with the corrected helper.
   */
  lemma EmbeddingAsWrittenDefect(current: Parent, kwargs: Attrs, original: Outcome<Response>)
    ensures var c := EmbeddingAsWritten(current, kwargs, original);
            && ("model" in OrderedDict.Keys(kwargs) ==>
                  && c.traced.outcome.Raised? && c.traced.outcome.error.className == "TypeError"
                  && c.usage == [] && Assignments(c.traced.log) == [] && Events(c.traced.log) == []
                  && LastStatus(c.traced.log).Some? && LastStatus(c.traced.log).value.0 == StatusError)
            && ("model" !in OrderedDict.Keys(kwargs) ==> c == Embedding(current, kwargs, original))
  {
    var r := ResponseOf(original);
    AdapterCallAsWrittenDefect(Provider, "azure.openai.embeddings.create", "embedding", ExtractModel(kwargs), [], current, kwargs, EmbeddingParams(kwargs), original, EmbeddingResponse(r), r.base.usage);
  }

  const EmbeddingKeys: seq<string> :=
    ["llm.request.model", "llm.request.temperature", "llm.request.max_tokens", "llm.request.stream",
     "llm.request.input", "llm.request.api_version", "llm.request.azure_endpoint", "llm.response.embeddings_count",
     "llm.response.embedding_dimension", "llm.response.model", "llm.response.id", "llm.response.object",
     "llm.response.created"] + TokenKeys

  lemma EmbeddingKeysAreDistinct()
    ensures PyTypes.Distinct(EmbeddingKeys)
  {
  }

  lemma EmbeddingKeysDistinct(kwargs: Attrs, r: Response)
    ensures PyTypes.Distinct(WriteKeys(EmbeddingRequest(kwargs)) + WriteKeys(EmbeddingHead(r)) + TokenKeys)
  {
    EmbeddingKeysAreDistinct();
    assert WriteKeys(EmbeddingRequest(kwargs)) + WriteKeys(EmbeddingHead(r)) + TokenKeys == EmbeddingKeys;
  }

  lemma EmbeddingReduced(r: Response, k: string)
    ensures LastValue(EmbeddingResponse(r), k) == LastValue(EmbeddingHead(r) + [], k)
  {
    var counts := [("llm.response.embeddings_count", PyOpenAI.EmbeddingsCount(r.base)),
                   ("llm.response.embedding_dimension", PyOpenAI.EmbeddingDimension(r.base))];
    ResponseWritesReduced(counts, r, k);
    assert EmbeddingHead(r) + [] == EmbeddingHead(r);
  }

  /**
   * A traced Azure embedding: the span "azure.openai.embeddings.create" with
   * operation "embedding"; outcome, ending and usage as for every wrapped
   * call.
   */
  lemma EmbeddingSpanProperties(current: Parent, kwargs: Attrs, original: Outcome<Response>)
    ensures var c := Embedding(current, kwargs, original);
            && c.traced.outcome == original && c.traced.span.name == "azure.openai.embeddings.create" && c.traced.span.kind == SpanKind.Client
            && OrderedDict.Get(c.traced.span.attributes, "llm.provider") == Some(PStr(Provider))
            && OrderedDict.Get(c.traced.span.attributes, "llm.operation.type") == Some(PStr("embedding"))
            && OrderedDict.Get(c.traced.span.attributes, "llm.model") == Some(ExtractModel(kwargs))
            && CountEnds(c.traced.log) == 1 && (LastStatus(c.traced.log) == Some((StatusOk, None)) <==> original.Returned?)
            && c.usage == (if ResponseOf(original).base.usage.Some? then [UsageRecord(Provider, ExtractModel(kwargs), ResponseOf(original).base.usage.value)] else [])
  {
    AdapterCallShape(Provider, "azure.openai.embeddings.create", "embedding", ExtractModel(kwargs), [], current, EmbeddingRequest(kwargs), original, EmbeddingResponse(ResponseOf(original)), ResponseOf(original).base.usage);
  }

  /**
   * The span records the input as text and, exactly when the call passes one,
   * the endpoint.
   */
  lemma EmbeddingRequestAttributes(current: Parent, kwargs: Attrs, original: Outcome<Response>)
    ensures var attrs := Assignments(Embedding(current, kwargs, original).traced.log);
            && OrderedDict.Get(attrs, "llm.request.input") == Some(PStr(Str(ExtractInput(kwargs))))
            && OrderedDict.Get(attrs, "llm.request.azure_endpoint") == OrderedDict.Get(kwargs, "azure_endpoint")
  {
    EmbeddingRequestInput(current, kwargs, original);
    EmbeddingRequestAzureEndpoint(current, kwargs, original);
  }

  /** The `llm.request.input` part of `EmbeddingRequestAttributes`. */
  lemma EmbeddingRequestInput(current: Parent, kwargs: Attrs, original: Outcome<Response>)
    ensures var attrs := Assignments(Embedding(current, kwargs, original).traced.log);
            OrderedDict.Get(attrs, "llm.request.input") == Some(PStr(Str(ExtractInput(kwargs))))
  {
    EmbeddingKeysDistinct(kwargs, ResponseOf(original));
    EmbeddingReduced(ResponseOf(original), "llm.request.input");
    KeyAtEquivalent(Provider, "azure.openai.embeddings.create", "embedding", ExtractModel(kwargs), [], current, EmbeddingRequest(kwargs), original, EmbeddingResponse(ResponseOf(original)), EmbeddingRequest(kwargs), EmbeddingHead(ResponseOf(original)), [], ResponseOf(original).base.usage, 4);
  }

  /** The `llm.request.azure_endpoint` part of `EmbeddingRequestAttributes`. */
  lemma EmbeddingRequestAzureEndpoint(current: Parent, kwargs: Attrs, original: Outcome<Response>)
    ensures var attrs := Assignments(Embedding(current, kwargs, original).traced.log);
            OrderedDict.Get(attrs, "llm.request.azure_endpoint") == OrderedDict.Get(kwargs, "azure_endpoint")
  {
    EmbeddingKeysDistinct(kwargs, ResponseOf(original));
    EmbeddingReduced(ResponseOf(original), "llm.request.azure_endpoint");
    KeyAtEquivalent(Provider, "azure.openai.embeddings.create", "embedding", ExtractModel(kwargs), [], current, EmbeddingRequest(kwargs), original, EmbeddingResponse(ResponseOf(original)), EmbeddingRequest(kwargs), EmbeddingHead(ResponseOf(original)), [], ResponseOf(original).base.usage, 6);
  }

  /**
   * After a return with embeddings the span holds their number and the first
   * one's dimension; after an exception neither.
   */
  lemma EmbeddingResponseAttributes(current: Parent, kwargs: Attrs, original: Outcome<Response>)
    ensures var attrs := Assignments(Embedding(current, kwargs, original).traced.log);
            && OrderedDict.Get(attrs, "llm.response.embeddings_count") == (if original.Returned? then PyOpenAI.EmbeddingsCount(original.value.base) else None)
            && OrderedDict.Get(attrs, "llm.response.embedding_dimension") == (if original.Returned? then PyOpenAI.EmbeddingDimension(original.value.base) else None)
  {
    EmbeddingResponseEmbeddingsCount(current, kwargs, original);
    EmbeddingResponseEmbeddingDimension(current, kwargs, original);
  }

  /** The `llm.response.embeddings_count` part of `EmbeddingResponseAttributes`. */
  lemma EmbeddingResponseEmbeddingsCount(current: Parent, kwargs: Attrs, original: Outcome<Response>)
    ensures var attrs := Assignments(Embedding(current, kwargs, original).traced.log);
            OrderedDict.Get(attrs, "llm.response.embeddings_count") == (if original.Returned? then PyOpenAI.EmbeddingsCount(original.value.base) else None)
  {
    EmbeddingKeysDistinct(kwargs, ResponseOf(original));
    EmbeddingReduced(ResponseOf(original), "llm.response.embeddings_count");
    KeyAtEquivalent(Provider, "azure.openai.embeddings.create", "embedding", ExtractModel(kwargs), [], current, EmbeddingRequest(kwargs), original, EmbeddingResponse(ResponseOf(original)), EmbeddingRequest(kwargs), EmbeddingHead(ResponseOf(original)), [], ResponseOf(original).base.usage, 7);
  }

  /** The `llm.response.embedding_dimension` part of `EmbeddingResponseAttributes`. */
  lemma EmbeddingResponseEmbeddingDimension(current: Parent, kwargs: Attrs, original: Outcome<Response>)
    ensures var attrs := Assignments(Embedding(current, kwargs, original).traced.log);
            OrderedDict.Get(attrs, "llm.response.embedding_dimension") == (if original.Returned? then PyOpenAI.EmbeddingDimension(original.value.base) else None)
  {
    EmbeddingKeysDistinct(kwargs, ResponseOf(original));
    EmbeddingReduced(ResponseOf(original), "llm.response.embedding_dimension");
    KeyAtEquivalent(Provider, "azure.openai.embeddings.create", "embedding", ExtractModel(kwargs), [], current, EmbeddingRequest(kwargs), original, EmbeddingResponse(ResponseOf(original)), EmbeddingRequest(kwargs), EmbeddingHead(ResponseOf(original)), [], ResponseOf(original).base.usage, 8);
  }
}
