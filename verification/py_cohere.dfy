/**
 * The Cohere adapter (`instrumentation/cohere.py`): it wraps the
 * constructor of `cohere.Client` so that every new client has `generate`,
 * `chat` and `embed` wrapped. Its usage comes from `meta.billed_units`.
 */
module PyCohere {
  import opened Wrappers
  import opened PyValues
  import opened Spans
  import OrderedDict
  import opened PyAdapterBase
  import opened PyAdapterCall
  import PyTypes

  const Provider: string := "cohere"
  const Classes: seq<string> := ["Client"]

  // ---------------------------------------------------------------------------
  // Instrumenting
  // ---------------------------------------------------------------------------

  function Instrument(a: Adapter, lib: Library): (Adapter, Library) {
    InstrumentConstructors(a, lib, Classes)
  }

  function Uninstrument(a: Adapter, lib: Library): (Adapter, Library)
    requires Saved(a, Classes)
  {
    UninstrumentConstructors(a, lib, Classes)
  }

  /**
   * Instrumenting a fresh adapter against an installed library wraps the
   * `Client` constructor; a second `instrument` changes nothing;
   * `uninstrument` restores it. A missing library changes nothing.
   */
  lemma InstrumentLifecycle(lib: Library)
    ensures var (a1, lib1) := Instrument(NewAdapter(Provider), lib);
            && Instrument(a1, lib1) == (a1, lib1)
            && (Importable(lib, Classes) ==>
                  && a1.instrumented
                  && lib1.inits["Client"] == Wrapped(Provider, lib.inits["Client"])
                  && Uninstrument(a1, lib1).1 == lib && !Uninstrument(a1, lib1).0.instrumented)
            && (!Importable(lib, Classes) ==> !a1.instrumented && lib1 == lib)
  {
    ConstructorLifecycle(NewAdapter(Provider), lib, Classes);
  }

  /** The hook's `_patch_method` calls: `generate`, `chat` and `embed` on the client itself. */
  function ClientTargets(client: nat): seq<Target> {
    [Target(Some(client), "generate", "_wrap_generate_sync"), Target(Some(client), "chat", "_wrap_chat_sync"),
     Target(Some(client), "embed", "_wrap_embed_sync")]
  }

  function InstrumentClientInstance(a: Adapter, slots: Slots, client: nat): (Adapter, Slots) {
    PatchAll(a, slots, ClientTargets(client))
  }

  /** The hook wraps the client's `generate`, `chat` and `embed`, each when it is there, and touches no other slot. */
  lemma InstrumentClientInstanceProperties(a: Adapter, slots: Slots, client: nat)
    ensures var (a', slots') := InstrumentClientInstance(a, slots, client);
            && slots'.Keys == slots.Keys
            && a'.instrumented == a.instrumented && a'.constructors == a.constructors
            && ((client, "generate") in slots ==>
                  slots'[(client, "generate")] == Wrapped("_wrap_generate_sync", slots[(client, "generate")]))
            && ((client, "chat") in slots ==> slots'[(client, "chat")] == Wrapped("_wrap_chat_sync", slots[(client, "chat")]))
            && ((client, "embed") in slots ==> slots'[(client, "embed")] == Wrapped("_wrap_embed_sync", slots[(client, "embed")]))
            && (forall s :: s in slots && s.0 != client ==> slots'[s] == slots[s])
  {
    var ts := ClientTargets(client);
    PatchAllProperties(a, slots, ts);
    assert forall s: (nat, string), i :: 0 <= i < |ts| && s.0 != client ==> !Aims(ts[i], s);
    assert Aims(ts[0], (client, "generate")) && Aims(ts[1], (client, "chat")) && Aims(ts[2], (client, "embed"));
  }

  // ---------------------------------------------------------------------------
  // Responses
  // ---------------------------------------------------------------------------

  /** A response's `meta`: the object itself and its `billed_units`, when it has them. */
  datatype Meta = Meta(value: PyValue, billedUnits: Option<Usage>)

  /**
   * A response as the wrappers read it: the text of each generation (when
   * the generation has one), `text`, the length of each embedding, `model`,
   * `id` and `meta`. The `input_tokens`, `output_tokens` and `total_tokens`
   * of the billed units fill the fields of a `Usage`.
   */
  datatype Response = Response(generations: Option<seq<Option<PyValue>>>, text: Option<PyValue>,
                               embeddings: Option<seq<nat>>, model: Option<PyValue>, id: Option<PyValue>,
                               meta: Option<Meta>)

  function ResponseOf(original: Outcome<Response>): Response {
    if original.Returned? then original.value else Response(None, None, None, None, None, None)
  }

  /** The first generation's text, when the response has generations. */
  function GenerationText(r: Response): Option<PyValue> {
    if r.generations.Some? && |r.generations.value| > 0 then r.generations.value[0] else None
  }

  function EmbeddingsCount(r: Response): Option<PyValue> {
    if r.embeddings.Some? then Some(PInt(|r.embeddings.value|)) else None
  }

  function EmbeddingDimension(r: Response): Option<PyValue> {
    if r.embeddings.Some? && |r.embeddings.value| > 0 then Some(PInt(r.embeddings.value[0])) else None
  }

  function MetaText(r: Response): Option<PyValue> {
    if r.meta.Some? then Some(PStr(Str(r.meta.value.value))) else None
  }

  /** The usage `_handle_usage_metrics` reads: the billed units, present even when they are falsy. */
  function BilledUnits(r: Response): Option<Usage> {
    if r.meta.Some? then r.meta.value.billedUnits else None
  }

  /** The override of `_set_response_attributes`: the inherited model and id, then the id again and `str(meta)`. */
  function CohereResponseWrites(r: Response): Writes {
    ResponseWrites(r.model, r.id) + [("llm.response.id", r.id), ("llm.response.meta", MetaText(r))]
  }

  /** The same writes with the repeated id written once. */
  function ReducedResponseWrites(r: Response): Writes {
    [("llm.response.model", r.model), ("llm.response.id", r.id), ("llm.response.meta", MetaText(r))]
  }

  /** Writing the id a second time, with the same value, changes no attribute. */
  lemma ResponseWritesReduced(pre: Writes, r: Response, k: string)
    ensures LastValue(pre + CohereResponseWrites(r), k) == LastValue(pre + ReducedResponseWrites(r), k)
  {
    var model, id, meta := ("llm.response.model", r.model), ("llm.response.id", r.id), ("llm.response.meta", MetaText(r));
    assert pre + CohereResponseWrites(r) == (pre + [model]) + [id] + [id, meta];
    assert pre + ReducedResponseWrites(r) == (pre + [model]) + [id, meta];
    LastValueRepeatedRun(pre + [model], [id], [id, meta], k);
  }

  /** `kwargs.get(name)` for the sampling parameters the bag carries. */
  function SamplingExtras(kwargs: Attrs): Attrs {
    [("temperature", KwargOr(kwargs, "temperature", PNone)), ("max_tokens", KwargOr(kwargs, "max_tokens", PNone))]
  }

  // ---------------------------------------------------------------------------
  // generate
  // ---------------------------------------------------------------------------

  function GenerateModel(kwargs: Attrs): PyValue {
    ExtractModel(kwargs, "command")
  }

  /** The request writes `traced_call` makes after `_set_request_attributes`: the prompt. */
  function GenerateParams(kwargs: Attrs): Writes {
    [("llm.request.prompt", Some(KwargOr(kwargs, "prompt", PStr(""))))]
  }

  function GenerateRequest(kwargs: Attrs): Writes {
    RequestWrites(GenerateModel(kwargs), kwargs) + GenerateParams(kwargs)
  }

  function GenerateResponse(r: Response): Writes {
    [("llm.response.text", GenerationText(r))] + CohereResponseWrites(r)
  }

  /** `_wrap_generate_sync`'s wrapper: model "command" unless given, usage from the billed units. */
  function Generate(current: Parent, kwargs: Attrs, original: Outcome<Response>): Call<Response> {
    var r := ResponseOf(original);
    AdapterCall(Provider, "cohere.generate", "completion", GenerateModel(kwargs), SamplingExtras(kwargs), current,
                GenerateRequest(kwargs), original, GenerateResponse(r), BilledUnits(r))
  }

  /**
   * The wrapper as written, which hands `_set_request_attributes` the
   * call's own keyword arguments, `model` among them when the caller
   * passes it.
   */
  function GenerateAsWritten(current: Parent, kwargs: Attrs, original: Outcome<Response>): Call<Response> {
    var r := ResponseOf(original);
    AdapterCallAsWritten(Provider, "cohere.generate", "completion", GenerateModel(kwargs), SamplingExtras(kwargs), current, kwargs, GenerateParams(kwargs), original, GenerateResponse(r), BilledUnits(r))
  }

  /**
   * As written, a call passing `model=` ends in `TypeError` before the API
   * is reached: no attribute, no event, no usage, an error status; the
   * response the API would have given is never seen. Without `model=` the
   * call is `Generate`, the wrapper with the corrected helper.
   */
  lemma GenerateAsWrittenDefect(current: Parent, kwargs: Attrs, original: Outcome<Response>)
    ensures var c := GenerateAsWritten(current, kwargs, original);
            && ("model" in OrderedDict.Keys(kwargs) ==>
                  && c.traced.outcome.Raised? && c.traced.outcome.error.className == "TypeError"
                  && c.usage == [] && Assignments(c.traced.log) == [] && Events(c.traced.log) == []
                  && LastStatus(c.traced.log).Some? && LastStatus(c.traced.log).value.0 == StatusError)
            && ("model" !in OrderedDict.Keys(kwargs) ==> c == Generate(current, kwargs, original))
  {
    var r := ResponseOf(original);
    AdapterCallAsWrittenDefect(Provider, "cohere.generate", "completion", GenerateModel(kwargs), SamplingExtras(kwargs), current, kwargs, GenerateParams(kwargs), original, GenerateResponse(r), BilledUnits(r));
  }

  const GenerateKeys: seq<string> :=
    ["llm.request.model", "llm.request.temperature", "llm.request.max_tokens", "llm.request.stream",
     "llm.request.prompt", "llm.response.text", "llm.response.model", "llm.response.id", "llm.response.meta"] + TokenKeys

  lemma GenerateKeysAreDistinct()
    ensures PyTypes.Distinct(GenerateKeys)
  {
  }

  lemma GenerateKeysDistinct(kwargs: Attrs, r: Response)
    ensures PyTypes.Distinct(WriteKeys(GenerateRequest(kwargs)) + WriteKeys([("llm.response.text", GenerationText(r))] + ReducedResponseWrites(r)) + TokenKeys)
  {
    GenerateKeysAreDistinct();
    assert WriteKeys(GenerateRequest(kwargs)) + WriteKeys([("llm.response.text", GenerationText(r))] + ReducedResponseWrites(r)) + TokenKeys
        == GenerateKeys;
  }

  lemma GenerateReduced(r: Response, k: string)
    ensures LastValue(GenerateResponse(r), k) == LastValue([("llm.response.text", GenerationText(r))] + ReducedResponseWrites(r) + [], k)
  {
    ResponseWritesReduced([("llm.response.text", GenerationText(r))], r, k);
    assert [("llm.response.text", GenerationText(r))] + ReducedResponseWrites(r) + [] ==
           [("llm.response.text", GenerationText(r))] + ReducedResponseWrites(r);
  }

  /**
   * A traced generate call: the response or exception passes through; the
   * client span "cohere.generate" names the provider, the operation
   * "completion" and the model, "command" unless the call names one; it ends
   * once, OK exactly when the call returned; usage is recorded exactly when a
   * returned response has billed units.
   */
  lemma GenerateSpanProperties(current: Parent, kwargs: Attrs, original: Outcome<Response>)
    ensures var c := Generate(current, kwargs, original);
            && c.traced.outcome == original && c.traced.span.name == "cohere.generate" && c.traced.span.kind == SpanKind.Client
            && OrderedDict.Get(c.traced.span.attributes, "llm.provider") == Some(PStr(Provider))
            && OrderedDict.Get(c.traced.span.attributes, "llm.operation.type") == Some(PStr("completion"))
            && OrderedDict.Get(c.traced.span.attributes, "llm.model") == Some(GenerateModel(kwargs))
            && CountEnds(c.traced.log) == 1 && (LastStatus(c.traced.log) == Some((StatusOk, None)) <==> original.Returned?)
            && c.usage == (if BilledUnits(ResponseOf(original)).Some? then [UsageRecord(Provider, GenerateModel(kwargs), BilledUnits(ResponseOf(original)).value)] else [])
  {
    AdapterCallShape(Provider, "cohere.generate", "completion", GenerateModel(kwargs), SamplingExtras(kwargs), current, GenerateRequest(kwargs), original, GenerateResponse(ResponseOf(original)), BilledUnits(ResponseOf(original)));
  }

  /**
   * The span records the model and the prompt, "" when the call passes none.
   */
  lemma GenerateRequestAttributes(current: Parent, kwargs: Attrs, original: Outcome<Response>)
    ensures var attrs := Assignments(Generate(current, kwargs, original).traced.log);
            && OrderedDict.Get(attrs, "llm.request.model") == Some(GenerateModel(kwargs))
            && OrderedDict.Get(attrs, "llm.request.prompt") == Some(KwargOr(kwargs, "prompt", PStr("")))
  {
    GenerateRequestModel(current, kwargs, original);
    GenerateRequestPrompt(current, kwargs, original);
  }

  /** The `llm.request.model` part of `GenerateRequestAttributes`. */
  lemma GenerateRequestModel(current: Parent, kwargs: Attrs, original: Outcome<Response>)
    ensures var attrs := Assignments(Generate(current, kwargs, original).traced.log);
            OrderedDict.Get(attrs, "llm.request.model") == Some(GenerateModel(kwargs))
  {
    GenerateKeysDistinct(kwargs, ResponseOf(original));
    GenerateReduced(ResponseOf(original), "llm.request.model");
    KeyAtEquivalent(Provider, "cohere.generate", "completion", GenerateModel(kwargs), SamplingExtras(kwargs), current, GenerateRequest(kwargs), original, GenerateResponse(ResponseOf(original)), GenerateRequest(kwargs), [("llm.response.text", GenerationText(ResponseOf(original)))] + ReducedResponseWrites(ResponseOf(original)), [], BilledUnits(ResponseOf(original)), 0);
  }

  /** The `llm.request.prompt` part of `GenerateRequestAttributes`. */
  lemma GenerateRequestPrompt(current: Parent, kwargs: Attrs, original: Outcome<Response>)
    ensures var attrs := Assignments(Generate(current, kwargs, original).traced.log);
            OrderedDict.Get(attrs, "llm.request.prompt") == Some(KwargOr(kwargs, "prompt", PStr("")))
  {
    GenerateKeysDistinct(kwargs, ResponseOf(original));
    GenerateReduced(ResponseOf(original), "llm.request.prompt");
    KeyAtEquivalent(Provider, "cohere.generate", "completion", GenerateModel(kwargs), SamplingExtras(kwargs), current, GenerateRequest(kwargs), original, GenerateResponse(ResponseOf(original)), GenerateRequest(kwargs), [("llm.response.text", GenerationText(ResponseOf(original)))] + ReducedResponseWrites(ResponseOf(original)), [], BilledUnits(ResponseOf(original)), 4);
  }

  /**
   * After a return the span holds the first generation's text and the text of
   * the response's meta, each when present; after an exception neither.
   */
  lemma GenerateResponseAttributes(current: Parent, kwargs: Attrs, original: Outcome<Response>)
    ensures var attrs := Assignments(Generate(current, kwargs, original).traced.log);
            && OrderedDict.Get(attrs, "llm.response.text") == (if original.Returned? then GenerationText(original.value) else None)
            && OrderedDict.Get(attrs, "llm.response.meta") == (if original.Returned? then MetaText(original.value) else None)
  {
    GenerateResponseText(current, kwargs, original);
    GenerateResponseMeta(current, kwargs, original);
  }

  /** The `llm.response.text` part of `GenerateResponseAttributes`. */
  lemma GenerateResponseText(current: Parent, kwargs: Attrs, original: Outcome<Response>)
    ensures var attrs := Assignments(Generate(current, kwargs, original).traced.log);
            OrderedDict.Get(attrs, "llm.response.text") == (if original.Returned? then GenerationText(original.value) else None)
  {
    GenerateKeysDistinct(kwargs, ResponseOf(original));
    GenerateReduced(ResponseOf(original), "llm.response.text");
    KeyAtEquivalent(Provider, "cohere.generate", "completion", GenerateModel(kwargs), SamplingExtras(kwargs), current, GenerateRequest(kwargs), original, GenerateResponse(ResponseOf(original)), GenerateRequest(kwargs), [("llm.response.text", GenerationText(ResponseOf(original)))] + ReducedResponseWrites(ResponseOf(original)), [], BilledUnits(ResponseOf(original)), 5);
  }

  /** The `llm.response.meta` part of `GenerateResponseAttributes`. */
  lemma GenerateResponseMeta(current: Parent, kwargs: Attrs, original: Outcome<Response>)
    ensures var attrs := Assignments(Generate(current, kwargs, original).traced.log);
            OrderedDict.Get(attrs, "llm.response.meta") == (if original.Returned? then MetaText(original.value) else None)
  {
    GenerateKeysDistinct(kwargs, ResponseOf(original));
    GenerateReduced(ResponseOf(original), "llm.response.meta");
    KeyAtEquivalent(Provider, "cohere.generate", "completion", GenerateModel(kwargs), SamplingExtras(kwargs), current, GenerateRequest(kwargs), original, GenerateResponse(ResponseOf(original)), GenerateRequest(kwargs), [("llm.response.text", GenerationText(ResponseOf(original)))] + ReducedResponseWrites(ResponseOf(original)), [], BilledUnits(ResponseOf(original)), 8);
  }

  // ---------------------------------------------------------------------------
  // chat
  // ---------------------------------------------------------------------------

  /** The request writes `traced_call` makes after `_set_request_attributes`: the message. */
  function ChatParams(kwargs: Attrs): Writes {
    [("llm.request.message", Some(KwargOr(kwargs, "message", PStr(""))))]
  }

  function ChatRequest(kwargs: Attrs): Writes {
    RequestWrites(GenerateModel(kwargs), kwargs) + ChatParams(kwargs)
  }

  function ChatResponse(r: Response): Writes {
    [("llm.response.text", r.text)] + CohereResponseWrites(r)
  }

  /** `_wrap_chat_sync`'s wrapper: model "command" unless given, the message as sent. */
  function Chat(current: Parent, kwargs: Attrs, original: Outcome<Response>): Call<Response> {
    var r := ResponseOf(original);
    AdapterCall(Provider, "cohere.chat", "chat", GenerateModel(kwargs), SamplingExtras(kwargs), current,
                ChatRequest(kwargs), original, ChatResponse(r), BilledUnits(r))
  }

  /**
   * The wrapper as written, which hands `_set_request_attributes` the
   * call's own keyword arguments, `model` among them when the caller
   * passes it.
   */
  function ChatAsWritten(current: Parent, kwargs: Attrs, original: Outcome<Response>): Call<Response> {
    var r := ResponseOf(original);
    AdapterCallAsWritten(Provider, "cohere.chat", "chat", GenerateModel(kwargs), SamplingExtras(kwargs), current, kwargs, ChatParams(kwargs), original, ChatResponse(r), BilledUnits(r))
  }

  /**
   * As written, a call passing `model=` ends in `TypeError` before the API
   * is reached: no attribute, no event, no usage, an error status; the
   * response the API would have given is never seen. Without `model=` the
   * call is `Chat`, the wrapper with the corrected helper.
   */
  lemma ChatAsWrittenDefect(current: Parent, kwargs: Attrs, original: Outcome<Response>)
    ensures var c := ChatAsWritten(current, kwargs, original);
            && ("model" in OrderedDict.Keys(kwargs) ==>
                  && c.traced.outcome.Raised? && c.traced.outcome.error.className == "TypeError"
                  && c.usage == [] && Assignments(c.traced.log) == [] && Events(c.traced.log) == []
                  && LastStatus(c.traced.log).Some? && LastStatus(c.traced.log).value.0 == StatusError)
            && ("model" !in OrderedDict.Keys(kwargs) ==> c == Chat(current, kwargs, original))
  {
    var r := ResponseOf(original);
    AdapterCallAsWrittenDefect(Provider, "cohere.chat", "chat", GenerateModel(kwargs), SamplingExtras(kwargs), current, kwargs, ChatParams(kwargs), original, ChatResponse(r), BilledUnits(r));
  }

  const ChatKeys: seq<string> :=
    ["llm.request.model", "llm.request.temperature", "llm.request.max_tokens", "llm.request.stream",
     "llm.request.message", "llm.response.text", "llm.response.model", "llm.response.id", "llm.response.meta"] + TokenKeys

  lemma ChatKeysAreDistinct()
    ensures PyTypes.Distinct(ChatKeys)
  {
  }

  lemma ChatKeysDistinct(kwargs: Attrs, r: Response)
    ensures PyTypes.Distinct(WriteKeys(ChatRequest(kwargs)) + WriteKeys([("llm.response.text", r.text)] + ReducedResponseWrites(r)) + TokenKeys)
  {
    ChatKeysAreDistinct();
    assert WriteKeys(ChatRequest(kwargs)) + WriteKeys([("llm.response.text", r.text)] + ReducedResponseWrites(r)) + TokenKeys
        == ChatKeys;
  }

  lemma ChatReduced(r: Response, k: string)
    ensures LastValue(ChatResponse(r), k) == LastValue([("llm.response.text", r.text)] + ReducedResponseWrites(r) + [], k)
  {
    ResponseWritesReduced([("llm.response.text", r.text)], r, k);
    assert [("llm.response.text", r.text)] + ReducedResponseWrites(r) + [] == [("llm.response.text", r.text)] + ReducedResponseWrites(r);
  }

  /**
   * A traced chat call: the response or exception passes through; the client
   * span "cohere.chat" has operation "chat" and the model, "command" unless
   * the call names one; it ends once, OK exactly when the call returned;
   * usage is recorded exactly when a returned response has billed units.
   */
  lemma ChatSpanProperties(current: Parent, kwargs: Attrs, original: Outcome<Response>)
    ensures var c := Chat(current, kwargs, original);
            && c.traced.outcome == original && c.traced.span.name == "cohere.chat" && c.traced.span.kind == SpanKind.Client
            && OrderedDict.Get(c.traced.span.attributes, "llm.provider") == Some(PStr(Provider))
            && OrderedDict.Get(c.traced.span.attributes, "llm.operation.type") == Some(PStr("chat"))
            && OrderedDict.Get(c.traced.span.attributes, "llm.model") == Some(GenerateModel(kwargs))
            && CountEnds(c.traced.log) == 1 && (LastStatus(c.traced.log) == Some((StatusOk, None)) <==> original.Returned?)
            && c.usage == (if BilledUnits(ResponseOf(original)).Some? then [UsageRecord(Provider, GenerateModel(kwargs), BilledUnits(ResponseOf(original)).value)] else [])
  {
    AdapterCallShape(Provider, "cohere.chat", "chat", GenerateModel(kwargs), SamplingExtras(kwargs), current, ChatRequest(kwargs), original, ChatResponse(ResponseOf(original)), BilledUnits(ResponseOf(original)));
  }

  /**
   * The span records the model and the message, "" when the call passes none.
   */
  lemma ChatRequestAttributes(current: Parent, kwargs: Attrs, original: Outcome<Response>)
    ensures var attrs := Assignments(Chat(current, kwargs, original).traced.log);
            && OrderedDict.Get(attrs, "llm.request.model") == Some(GenerateModel(kwargs))
            && OrderedDict.Get(attrs, "llm.request.message") == Some(KwargOr(kwargs, "message", PStr("")))
  {
    ChatRequestModel(current, kwargs, original);
    ChatRequestMessage(current, kwargs, original);
  }

  /** The `llm.request.model` part of `ChatRequestAttributes`. */
  lemma ChatRequestModel(current: Parent, kwargs: Attrs, original: Outcome<Response>)
    ensures var attrs := Assignments(Chat(current, kwargs, original).traced.log);
            OrderedDict.Get(attrs, "llm.request.model") == Some(GenerateModel(kwargs))
  {
    ChatKeysDistinct(kwargs, ResponseOf(original));
    ChatReduced(ResponseOf(original), "llm.request.model");
    KeyAtEquivalent(Provider, "cohere.chat", "chat", GenerateModel(kwargs), SamplingExtras(kwargs), current, ChatRequest(kwargs), original, ChatResponse(ResponseOf(original)), ChatRequest(kwargs), [("llm.response.text", ResponseOf(original).text)] + ReducedResponseWrites(ResponseOf(original)), [], BilledUnits(ResponseOf(original)), 0);
  }

  /** The `llm.request.message` part of `ChatRequestAttributes`. */
  lemma ChatRequestMessage(current: Parent, kwargs: Attrs, original: Outcome<Response>)
    ensures var attrs := Assignments(Chat(current, kwargs, original).traced.log);
            OrderedDict.Get(attrs, "llm.request.message") == Some(KwargOr(kwargs, "message", PStr("")))
  {
    ChatKeysDistinct(kwargs, ResponseOf(original));
    ChatReduced(ResponseOf(original), "llm.request.message");
    KeyAtEquivalent(Provider, "cohere.chat", "chat", GenerateModel(kwargs), SamplingExtras(kwargs), current, ChatRequest(kwargs), original, ChatResponse(ResponseOf(original)), ChatRequest(kwargs), [("llm.response.text", ResponseOf(original).text)] + ReducedResponseWrites(ResponseOf(original)), [], BilledUnits(ResponseOf(original)), 4);
  }

  /**
   * After a return the span holds the reply text and the response id, each
   * when present; after an exception neither.
   */
  lemma ChatResponseAttributes(current: Parent, kwargs: Attrs, original: Outcome<Response>)
    ensures var attrs := Assignments(Chat(current, kwargs, original).traced.log);
            && OrderedDict.Get(attrs, "llm.response.text") == (if original.Returned? then original.value.text else None)
            && OrderedDict.Get(attrs, "llm.response.id") == (if original.Returned? then original.value.id else None)
  {
    ChatResponseText(current, kwargs, original);
    ChatResponseId(current, kwargs, original);
  }

  /** The `llm.response.text` part of `ChatResponseAttributes`. */
  lemma ChatResponseText(current: Parent, kwargs: Attrs, original: Outcome<Response>)
    ensures var attrs := Assignments(Chat(current, kwargs, original).traced.log);
            OrderedDict.Get(attrs, "llm.response.text") == (if original.Returned? then original.value.text else None)
  {
    ChatKeysDistinct(kwargs, ResponseOf(original));
    ChatReduced(ResponseOf(original), "llm.response.text");
    KeyAtEquivalent(Provider, "cohere.chat", "chat", GenerateModel(kwargs), SamplingExtras(kwargs), current, ChatRequest(kwargs), original, ChatResponse(ResponseOf(original)), ChatRequest(kwargs), [("llm.response.text", ResponseOf(original).text)] + ReducedResponseWrites(ResponseOf(original)), [], BilledUnits(ResponseOf(original)), 5);
  }

  /** The `llm.response.id` part of `ChatResponseAttributes`. */
  lemma ChatResponseId(current: Parent, kwargs: Attrs, original: Outcome<Response>)
    ensures var attrs := Assignments(Chat(current, kwargs, original).traced.log);
            OrderedDict.Get(attrs, "llm.response.id") == (if original.Returned? then original.value.id else None)
  {
    ChatKeysDistinct(kwargs, ResponseOf(original));
    ChatReduced(ResponseOf(original), "llm.response.id");
    KeyAtEquivalent(Provider, "cohere.chat", "chat", GenerateModel(kwargs), SamplingExtras(kwargs), current, ChatRequest(kwargs), original, ChatResponse(ResponseOf(original)), ChatRequest(kwargs), [("llm.response.text", ResponseOf(original).text)] + ReducedResponseWrites(ResponseOf(original)), [], BilledUnits(ResponseOf(original)), 7);
  }

  // ---------------------------------------------------------------------------
  // embed
  // ---------------------------------------------------------------------------

  function EmbedModel(kwargs: Attrs): PyValue {
    ExtractModel(kwargs, "embed-english-v2.0")
  }

  function Texts(kwargs: Attrs): PyValue {
    KwargOr(kwargs, "texts", PList([]))
  }

  /** The request writes `traced_call` makes after `_set_request_attributes`: the texts' count and text form. */
  function EmbedParams(kwargs: Attrs): Writes
    requires Len(Texts(kwargs)).Some?
  {
    [("llm.request.texts_count", Some(PInt(Len(Texts(kwargs)).value))), ("llm.request.texts", Some(PStr(Str(Texts(kwargs)))))]
  }

  function EmbedRequest(kwargs: Attrs): Writes
    requires Len(Texts(kwargs)).Some?
  {
    RequestWrites(EmbedModel(kwargs), kwargs) + EmbedParams(kwargs)
  }

  function EmbedHead(r: Response): Writes {
    [("llm.response.embeddings_count", EmbeddingsCount(r)), ("llm.response.embedding_dimension", EmbeddingDimension(r))]
  }

  function EmbedResponse(r: Response): Writes {
    EmbedHead(r) + CohereResponseWrites(r)
  }

  /** The exception `len(v)` raises for a value without a length. */
  function NoLen(v: PyValue): PyException {
    PyException("TypeError", "object of type '" + TypeName(v) + "' has no len()")
  }

  function EmbedBag(kwargs: Attrs): Attrs {
    AdapterBag(Provider, EmbedModel(kwargs), "embedding", [])
  }

  /**
   * `traced_call` when `texts` has no length: the request writes made so
   * far, then `len(texts)` raises before the API is reached.
   */
  function UnsizedTexts(current: Parent, kwargs: Attrs, request: Writes): Call<Response>
    requires Len(Texts(kwargs)).None?
  {
    Call(CreateLlmSpanSync("cohere.embed", EmbedBag(kwargs), current, Sets(request), Raised(NoLen(Texts(kwargs)))), [])
  }

  /** `_wrap_embed_sync`'s wrapper: model "embed-english-v2.0" unless given; no sampling parameters. */
  function Embed(current: Parent, kwargs: Attrs, original: Outcome<Response>): Call<Response> {
    var r := ResponseOf(original);
    if Len(Texts(kwargs)).None? then UnsizedTexts(current, kwargs, RequestWrites(EmbedModel(kwargs), kwargs))
    else AdapterCall(Provider, "cohere.embed", "embedding", EmbedModel(kwargs), [], current, EmbedRequest(kwargs), original,
                     EmbedResponse(r), BilledUnits(r))
  }

  /** The wrapper as written, which hands `_set_request_attributes` the call's own keyword arguments. */
  function EmbedAsWritten(current: Parent, kwargs: Attrs, original: Outcome<Response>): Call<Response> {
    var r := ResponseOf(original);
    if Len(Texts(kwargs)).Some? then
      AdapterCallAsWritten(Provider, "cohere.embed", "embedding", EmbedModel(kwargs), [], current, kwargs,
                           EmbedParams(kwargs), original, EmbedResponse(r), BilledUnits(r))
    else
      match SetRequestAttributesAsWritten(EmbedModel(kwargs), kwargs)
      case Err(e) => Call(CreateLlmSpanSync("cohere.embed", EmbedBag(kwargs), current, [], Raised(e)), [])
      case Ok(request) => UnsizedTexts(current, kwargs, request)
  }

  /**
   * As written, an embed call passing `model=` ends in `TypeError` before
   * the API is reached: no attribute, no event, no usage, an error status.
   * Without `model=` the call is `Embed`, the wrapper with the corrected
   * helper.
   */
  lemma EmbedAsWrittenDefect(current: Parent, kwargs: Attrs, original: Outcome<Response>)
    ensures var c := EmbedAsWritten(current, kwargs, original);
            && ("model" in OrderedDict.Keys(kwargs) ==>
                  && c.traced.outcome.Raised? && c.traced.outcome.error.className == "TypeError"
                  && c.usage == [] && Assignments(c.traced.log) == [] && Events(c.traced.log) == []
                  && LastStatus(c.traced.log).Some? && LastStatus(c.traced.log).value.0 == StatusError)
            && ("model" !in OrderedDict.Keys(kwargs) ==> c == Embed(current, kwargs, original))
  {
    if "model" in OrderedDict.Keys(kwargs) {
      EmbedModelClash(current, kwargs, original);
    } else {
      EmbedNoClash(current, kwargs, original);
    }
  }

  lemma EmbedModelClash(current: Parent, kwargs: Attrs, original: Outcome<Response>)
    requires "model" in OrderedDict.Keys(kwargs)
    ensures var c := EmbedAsWritten(current, kwargs, original);
            && c.traced.outcome.Raised? && c.traced.outcome.error.className == "TypeError"
            && c.usage == [] && Assignments(c.traced.log) == [] && Events(c.traced.log) == []
            && LastStatus(c.traced.log).Some? && LastStatus(c.traced.log).value.0 == StatusError
  {
    var r := ResponseOf(original);
    if Len(Texts(kwargs)).Some? {
      AdapterCallAsWrittenDefect(Provider, "cohere.embed", "embedding", EmbedModel(kwargs), [], current, kwargs,
                                 EmbedParams(kwargs), original, EmbedResponse(r), BilledUnits(r));
    } else {
      var o: Outcome<Response> := Raised(SetRequestAttributesAsWritten(EmbedModel(kwargs), kwargs).error);
      CreateLlmSpanSyncProperties("cohere.embed", EmbedBag(kwargs), current, [], o);
    }
  }

  lemma EmbedNoClash(current: Parent, kwargs: Attrs, original: Outcome<Response>)
    requires "model" !in OrderedDict.Keys(kwargs)
    ensures EmbedAsWritten(current, kwargs, original) == Embed(current, kwargs, original)
  {
    var r := ResponseOf(original);
    if Len(Texts(kwargs)).Some? {
      AdapterCallAsWrittenDefect(Provider, "cohere.embed", "embedding", EmbedModel(kwargs), [], current, kwargs,
                                 EmbedParams(kwargs), original, EmbedResponse(r), BilledUnits(r));
    }
  }

  /**
   * When `texts` has no length the call ends in `TypeError` from `len`:
   * the API is not reached, no usage is recorded, the span ends once with
   * an error status, and neither the texts nor any response attribute is
   * set.
   */
  lemma EmbedUnsized(current: Parent, kwargs: Attrs, original: Outcome<Response>)
    requires Len(Texts(kwargs)).None?
    ensures var c := Embed(current, kwargs, original);
            var attrs := Assignments(c.traced.log);
            && c.traced.span.name == "cohere.embed" && c.traced.span.kind == SpanKind.Client
            && c.traced.span.attributes == EmbedBag(kwargs)
            && c.traced.outcome == Raised(NoLen(Texts(kwargs))) && c.usage == [] && Events(c.traced.log) == []
            && CountEnds(c.traced.log) == 1
            && LastStatus(c.traced.log) == Some((StatusError, Some(NoLen(Texts(kwargs)).message)))
            && OrderedDict.Get(attrs, "llm.request.texts_count") == None
            && OrderedDict.Get(attrs, "llm.request.texts") == None
            && OrderedDict.Get(attrs, "llm.response.embeddings_count") == None
            && OrderedDict.Get(attrs, "llm.response.embedding_dimension") == None
  {
    var request := RequestWrites(EmbedModel(kwargs), kwargs);
    var o: Outcome<Response> := Raised(NoLen(Texts(kwargs)));
    var t := CreateLlmSpanSync("cohere.embed", EmbedBag(kwargs), current, Sets(request), o);
    assert Embed(current, kwargs, original) == Call(t, []);
    CreateLlmSpanSyncProperties("cohere.embed", EmbedBag(kwargs), current, Sets(request), o);
    assert Assignments(Embed(current, kwargs, original).traced.log) == Assignments(Sets(request));
    SetsProperties(request);
    UnsizedUnwritten(request, "llm.request.texts_count");
    UnsizedUnwritten(request, "llm.request.texts");
    UnsizedUnwritten(request, "llm.response.embeddings_count");
    UnsizedUnwritten(request, "llm.response.embedding_dimension");
  }

  /** The helper's writes name none of the keys `len(texts)` keeps from being written. */
  lemma UnsizedUnwritten(request: Writes, k: string)
    requires |request| == 4 && request[0].0 == "llm.request.model" && request[1].0 == "llm.request.temperature"
    requires request[2].0 == "llm.request.max_tokens" && request[3].0 == "llm.request.stream"
    requires k in ["llm.request.texts_count", "llm.request.texts", "llm.response.embeddings_count", "llm.response.embedding_dimension"]
    ensures OrderedDict.Get(Assignments(Sets(request)), k) == None
  {
    SetsProperties(request);
    LastValueUnwritten(request, k);
  }

  const EmbedKeys: seq<string> :=
    ["llm.request.model", "llm.request.temperature", "llm.request.max_tokens", "llm.request.stream",
     "llm.request.texts_count", "llm.request.texts", "llm.response.embeddings_count", "llm.response.embedding_dimension",
     "llm.response.model", "llm.response.id", "llm.response.meta"] + TokenKeys

  lemma EmbedKeysAreDistinct()
    ensures PyTypes.Distinct(EmbedKeys)
  {
  }

  lemma EmbedKeysDistinct(kwargs: Attrs, r: Response)
    requires Len(Texts(kwargs)).Some?
    ensures PyTypes.Distinct(WriteKeys(EmbedRequest(kwargs)) + WriteKeys(EmbedHead(r) + ReducedResponseWrites(r)) + TokenKeys)
  {
    EmbedKeysAreDistinct();
    assert WriteKeys(EmbedRequest(kwargs)) + WriteKeys(EmbedHead(r) + ReducedResponseWrites(r)) + TokenKeys == EmbedKeys;
  }

  lemma EmbedReduced(r: Response, k: string)
    ensures LastValue(EmbedResponse(r), k) == LastValue(EmbedHead(r) + ReducedResponseWrites(r) + [], k)
  {
    ResponseWritesReduced(EmbedHead(r), r, k);
    assert EmbedHead(r) + ReducedResponseWrites(r) + [] == EmbedHead(r) + ReducedResponseWrites(r);
  }

  /**
   * A traced embed call: the response or exception passes through; the client
   * span "cohere.embed" has operation "embedding" and the model,
   * "embed-english-v2.0" unless the call names one; it ends once, OK exactly
   * when the call returned; usage is recorded exactly when a returned
   * response has billed units. When `texts` has no length the span instead
   * ends in error with the `TypeError` and no usage.
   */
  lemma EmbedSpanProperties(current: Parent, kwargs: Attrs, original: Outcome<Response>)
    ensures var c := Embed(current, kwargs, original);
            && c.traced.span.name == "cohere.embed" && c.traced.span.kind == SpanKind.Client
            && OrderedDict.Get(c.traced.span.attributes, "llm.provider") == Some(PStr(Provider))
            && OrderedDict.Get(c.traced.span.attributes, "llm.operation.type") == Some(PStr("embedding"))
            && OrderedDict.Get(c.traced.span.attributes, "llm.model") == Some(EmbedModel(kwargs))
            && CountEnds(c.traced.log) == 1
            && (Len(Texts(kwargs)).Some? ==>
                  && c.traced.outcome == original && (LastStatus(c.traced.log) == Some((StatusOk, None)) <==> original.Returned?)
                  && c.usage == (if BilledUnits(ResponseOf(original)).Some? then [UsageRecord(Provider, EmbedModel(kwargs), BilledUnits(ResponseOf(original)).value)] else []))
            && (Len(Texts(kwargs)).None? ==>
                  && c.traced.outcome == Raised(NoLen(Texts(kwargs))) && c.usage == []
                  && LastStatus(c.traced.log) == Some((StatusError, Some(NoLen(Texts(kwargs)).message))))
  {
    if Len(Texts(kwargs)).Some? {
      EmbedSpanPropertiesSized(current, kwargs, original);
    } else {
      EmbedUnsized(current, kwargs, original);
    }
  }

  /** The case of `EmbedSpanProperties` where `texts` has a length. */
  lemma EmbedSpanPropertiesSized(current: Parent, kwargs: Attrs, original: Outcome<Response>)
    requires Len(Texts(kwargs)).Some?
    ensures var c := Embed(current, kwargs, original);
            && c.traced.outcome == original && c.traced.span.name == "cohere.embed" && c.traced.span.kind == SpanKind.Client
            && OrderedDict.Get(c.traced.span.attributes, "llm.provider") == Some(PStr(Provider))
            && OrderedDict.Get(c.traced.span.attributes, "llm.operation.type") == Some(PStr("embedding"))
            && OrderedDict.Get(c.traced.span.attributes, "llm.model") == Some(EmbedModel(kwargs))
            && CountEnds(c.traced.log) == 1 && (LastStatus(c.traced.log) == Some((StatusOk, None)) <==> original.Returned?)
            && c.usage == (if BilledUnits(ResponseOf(original)).Some? then [UsageRecord(Provider, EmbedModel(kwargs), BilledUnits(ResponseOf(original)).value)] else [])
  {
    AdapterCallShape(Provider, "cohere.embed", "embedding", EmbedModel(kwargs), [], current, EmbedRequest(kwargs), original, EmbedResponse(ResponseOf(original)), BilledUnits(ResponseOf(original)));
  }

  /**
   * The span records how many texts the call passes and their text form (none
   * passed counts as an empty list); a `texts` with no length records
   * neither.
   */
  lemma EmbedRequestAttributes(current: Parent, kwargs: Attrs, original: Outcome<Response>)
    ensures var attrs := Assignments(Embed(current, kwargs, original).traced.log);
            && OrderedDict.Get(attrs, "llm.request.texts_count") == (if Len(Texts(kwargs)).Some? then Some(PInt(Len(Texts(kwargs)).value)) else None)
            && OrderedDict.Get(attrs, "llm.request.texts") == (if Len(Texts(kwargs)).Some? then Some(PStr(Str(Texts(kwargs)))) else None)
  {
    if Len(Texts(kwargs)).Some? {
      EmbedRequestTextsCount(current, kwargs, original);
      EmbedRequestTexts(current, kwargs, original);
    } else {
      EmbedUnsized(current, kwargs, original);
    }
  }

  /** The `llm.request.texts_count` part of `EmbedRequestAttributes`. */
  lemma EmbedRequestTextsCount(current: Parent, kwargs: Attrs, original: Outcome<Response>)
    requires Len(Texts(kwargs)).Some?
    ensures var attrs := Assignments(Embed(current, kwargs, original).traced.log);
            OrderedDict.Get(attrs, "llm.request.texts_count") == Some(PInt(Len(Texts(kwargs)).value))
  {
    EmbedKeysDistinct(kwargs, ResponseOf(original));
    EmbedReduced(ResponseOf(original), "llm.request.texts_count");
    KeyAtEquivalent(Provider, "cohere.embed", "embedding", EmbedModel(kwargs), [], current, EmbedRequest(kwargs), original, EmbedResponse(ResponseOf(original)), EmbedRequest(kwargs), EmbedHead(ResponseOf(original)) + ReducedResponseWrites(ResponseOf(original)), [], BilledUnits(ResponseOf(original)), 4);
  }

  /** The `llm.request.texts` part of `EmbedRequestAttributes`. */
  lemma EmbedRequestTexts(current: Parent, kwargs: Attrs, original: Outcome<Response>)
    requires Len(Texts(kwargs)).Some?
    ensures var attrs := Assignments(Embed(current, kwargs, original).traced.log);
            OrderedDict.Get(attrs, "llm.request.texts") == Some(PStr(Str(Texts(kwargs))))
  {
    EmbedKeysDistinct(kwargs, ResponseOf(original));
    EmbedReduced(ResponseOf(original), "llm.request.texts");
    KeyAtEquivalent(Provider, "cohere.embed", "embedding", EmbedModel(kwargs), [], current, EmbedRequest(kwargs), original, EmbedResponse(ResponseOf(original)), EmbedRequest(kwargs), EmbedHead(ResponseOf(original)) + ReducedResponseWrites(ResponseOf(original)), [], BilledUnits(ResponseOf(original)), 5);
  }

  /**
   * After a return the span holds the number of embeddings, when the response
   * has them, and the first one's dimension, when there is one; after an
   * exception, or when `texts` has no length, neither.
   */
  lemma EmbedResponseAttributes(current: Parent, kwargs: Attrs, original: Outcome<Response>)
    ensures var attrs := Assignments(Embed(current, kwargs, original).traced.log);
            var returned := Len(Texts(kwargs)).Some? && original.Returned?;
            && OrderedDict.Get(attrs, "llm.response.embeddings_count") == (if returned then EmbeddingsCount(original.value) else None)
            && OrderedDict.Get(attrs, "llm.response.embedding_dimension") == (if returned then EmbeddingDimension(original.value) else None)
  {
    if Len(Texts(kwargs)).Some? {
      EmbedResponseEmbeddingsCount(current, kwargs, original);
      EmbedResponseEmbeddingDimension(current, kwargs, original);
    } else {
      EmbedUnsized(current, kwargs, original);
    }
  }

  /** The `llm.response.embeddings_count` part of `EmbedResponseAttributes`. */
  lemma EmbedResponseEmbeddingsCount(current: Parent, kwargs: Attrs, original: Outcome<Response>)
    requires Len(Texts(kwargs)).Some?
    ensures var attrs := Assignments(Embed(current, kwargs, original).traced.log);
            OrderedDict.Get(attrs, "llm.response.embeddings_count") == (if original.Returned? then EmbeddingsCount(original.value) else None)
  {
    EmbedKeysDistinct(kwargs, ResponseOf(original));
    EmbedReduced(ResponseOf(original), "llm.response.embeddings_count");
    KeyAtEquivalent(Provider, "cohere.embed", "embedding", EmbedModel(kwargs), [], current, EmbedRequest(kwargs), original, EmbedResponse(ResponseOf(original)), EmbedRequest(kwargs), EmbedHead(ResponseOf(original)) + ReducedResponseWrites(ResponseOf(original)), [], BilledUnits(ResponseOf(original)), 6);
  }

  /** The `llm.response.embedding_dimension` part of `EmbedResponseAttributes`. */
  lemma EmbedResponseEmbeddingDimension(current: Parent, kwargs: Attrs, original: Outcome<Response>)
    requires Len(Texts(kwargs)).Some?
    ensures var attrs := Assignments(Embed(current, kwargs, original).traced.log);
            OrderedDict.Get(attrs, "llm.response.embedding_dimension") == (if original.Returned? then EmbeddingDimension(original.value) else None)
  {
    EmbedKeysDistinct(kwargs, ResponseOf(original));
    EmbedReduced(ResponseOf(original), "llm.response.embedding_dimension");
    KeyAtEquivalent(Provider, "cohere.embed", "embedding", EmbedModel(kwargs), [], current, EmbedRequest(kwargs), original, EmbedResponse(ResponseOf(original)), EmbedRequest(kwargs), EmbedHead(ResponseOf(original)) + ReducedResponseWrites(ResponseOf(original)), [], BilledUnits(ResponseOf(original)), 7);
  }

  /**
   * After a return whose meta has billed units, the span carries each
   * count they have and one usage record maps input, output and total
   * tokens, with 0 for a missing one.
   */
  lemma GenerateTokens(current: Parent, kwargs: Attrs, original: Outcome<Response>)
    requires original.Returned? && BilledUnits(original.value).Some?
    ensures var c := Generate(current, kwargs, original);
            var u := BilledUnits(original.value).value;
            && (u.promptTokens.Some? ==> OrderedDict.Get(Assignments(c.traced.log), "llm.prompt.tokens") == AsInt(u.promptTokens))
            && (u.completionTokens.Some? ==>
                  OrderedDict.Get(Assignments(c.traced.log), "llm.completion.tokens") == AsInt(u.completionTokens))
            && (u.totalTokens.Some? ==> OrderedDict.Get(Assignments(c.traced.log), "llm.total.tokens") == AsInt(u.totalTokens))
            && c.usage == [UsageRecord(Provider, GenerateModel(kwargs), u)]
  {
    var r := ResponseOf(original);
    AdapterCallTokens(Provider, "cohere.generate", "completion", GenerateModel(kwargs), SamplingExtras(kwargs), current,
                      GenerateRequest(kwargs), original, GenerateResponse(r), BilledUnits(r));
    AdapterCallShape(Provider, "cohere.generate", "completion", GenerateModel(kwargs), SamplingExtras(kwargs), current,
                     GenerateRequest(kwargs), original, GenerateResponse(r), BilledUnits(r));
  }
}
