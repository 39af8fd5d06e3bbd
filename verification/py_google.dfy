/**
 * The Google Generative AI adapter (`instrumentation/google.py`): it wraps
 * the constructor of `GenerativeModel` so that every new model instance
 * has `generate_content` and `start_chat` wrapped. Its own response and
 * usage helpers copy `usage_metadata` onto the span.
 */
module PyGoogle {
  import opened Wrappers
  import opened PyValues
  import opened Spans
  import OrderedDict
  import opened PyAdapterBase
  import opened PyAdapterCall
  import PyTypes

  const Provider: string := "google"
  const Classes: seq<string> := ["GenerativeModel"]

  // ---------------------------------------------------------------------------
  // Instrumenting
  // ---------------------------------------------------------------------------

  function Instrument(a: Adapter, lib: Library): (Adapter, Library) {
    InstrumentConstructors(a, lib, Classes)
  }

  function Uninstrument(a: Adapter, lib: Library): (Adapter, Library)
    requires Saved(a, Classes)
  {
    UninstrumentConstructors(a, lib, Classes)
  }

  /**
   * Instrumenting a fresh adapter against an installed library wraps the
   * `GenerativeModel` constructor; a second `instrument` changes nothing;
   * `uninstrument` restores it. A missing library changes nothing.
   */
  lemma InstrumentLifecycle(lib: Library)
    ensures var (a1, lib1) := Instrument(NewAdapter(Provider), lib);
            && Instrument(a1, lib1) == (a1, lib1)
            && (Importable(lib, Classes) ==>
                  && a1.instrumented
                  && lib1.inits["GenerativeModel"] == Wrapped(Provider, lib.inits["GenerativeModel"])
                  && Uninstrument(a1, lib1).1 == lib && !Uninstrument(a1, lib1).0.instrumented)
            && (!Importable(lib, Classes) ==> !a1.instrumented && lib1 == lib)
  {
    ConstructorLifecycle(NewAdapter(Provider), lib, Classes);
  }

  /** A `GenerativeModel` instance: its `id()`, and its `model_name` when it has one. */
  datatype ModelInstance = ModelInstance(id: nat, modelName: Option<PyValue>)

  /**
   * The hook's `_patch_method` calls: `generate_content` and `start_chat`
   * on the instance itself. The `hasattr` guard in front of each call is
   * the same test `_patch_method` makes, so a missing method is simply a
   * missing slot.
   */
  function ClientTargets(m: ModelInstance): seq<Target> {
    [Target(Some(m.id), "generate_content", "_wrap_generate_content_sync"),
     Target(Some(m.id), "start_chat", "_wrap_start_chat_sync")]
  }

  function InstrumentClientInstance(a: Adapter, slots: Slots, m: ModelInstance): (Adapter, Slots) {
    PatchAll(a, slots, ClientTargets(m))
  }

  /**
   * The hook wraps the instance's `generate_content` and `start_chat`,
   * each when it is there, and touches no other slot.
   */
  lemma InstrumentClientInstanceProperties(a: Adapter, slots: Slots, m: ModelInstance)
    ensures var (a', slots') := InstrumentClientInstance(a, slots, m);
            && slots'.Keys == slots.Keys
            && a'.instrumented == a.instrumented && a'.constructors == a.constructors
            && ((m.id, "generate_content") in slots ==>
                  slots'[(m.id, "generate_content")] ==
                  Wrapped("_wrap_generate_content_sync", slots[(m.id, "generate_content")]))
            && ((m.id, "start_chat") in slots ==>
                  slots'[(m.id, "start_chat")] == Wrapped("_wrap_start_chat_sync", slots[(m.id, "start_chat")]))
            && (forall s :: s in slots && s != (m.id, "generate_content") && s != (m.id, "start_chat") ==>
                  slots'[s] == slots[s])
  {
    var ts := ClientTargets(m);
    PatchAllProperties(a, slots, ts);
    assert forall s: (nat, string), i :: 0 <= i < |ts| && s != (m.id, "generate_content") && s != (m.id, "start_chat") ==>
             !Aims(ts[i], s);
    assert Aims(ts[0], (m.id, "generate_content")) && Aims(ts[1], (m.id, "start_chat"));
  }

  // ---------------------------------------------------------------------------
  // Which model the spans name
  // ---------------------------------------------------------------------------

  /**
   * As written, both wrappers evaluate `getattr(self, 'model_name',
   * 'unknown')` where `self` is the adapter, not the model instance; the
   * adapter has no `model_name`, so the result is always "unknown".
   */
  function ModelAsWritten(m: ModelInstance): PyValue {
    PStr("unknown")
  }

  /** The model the wrappers mean to read: the instance's `model_name`, or "unknown" without one. */
  function InstanceModel(m: ModelInstance): PyValue {
    m.modelName.GetOr(PStr("unknown"))
  }

  // ---------------------------------------------------------------------------
  // Responses
  // ---------------------------------------------------------------------------

  /**
   * One candidate: the texts of `content.parts` when it has `content` with
   * `parts`, and its `finish_reason` when it has one.
   */
  datatype Candidate = Candidate(parts: Option<seq<PyValue>>, finishReason: Option<PyValue>)

  /**
   * A response (or chat session) as the wrappers read it: `text`,
   * `candidates`, `model`, `id`, and `usage_metadata` when it is there and
   * truthy, its `prompt_token_count`, `candidates_token_count` and
   * `total_token_count` in the fields of a `Usage`.
   */
  datatype Response = Response(text: Option<PyValue>, candidates: Option<seq<Candidate>>, model: Option<PyValue>,
                               id: Option<PyValue>, usageMetadata: Option<Usage>)

  function ResponseOf(original: Outcome<Response>): Response {
    if original.Returned? then original.value else Response(None, None, None, None, None)
  }

  function FirstCandidate(r: Response): Option<Candidate> {
    if r.candidates.Some? && |r.candidates.value| > 0 then Some(r.candidates.value[0]) else None
  }

  /** The first candidate's first part's text, when there is one. */
  function PartText(r: Response): Option<PyValue> {
    var c := FirstCandidate(r);
    if c.Some? && c.value.parts.Some? && |c.value.parts.value| > 0 then Some(c.value.parts.value[0]) else None
  }

  function CandidatesCount(r: Response): Option<PyValue> {
    if FirstCandidate(r).Some? then Some(PInt(|r.candidates.value|)) else None
  }

  function FinishReason(r: Response): Option<PyValue> {
    if FirstCandidate(r).Some? then FirstCandidate(r).value.finishReason else None
  }

  /**
   * The adapter's `_set_response_attributes`, all but its token counts:
   * the inherited model and id, then the number of candidates and the
   * first one's finish reason.
   */
  function ResponseHead(r: Response): Writes {
    ResponseWrites(r.model, r.id)
      + [("llm.response.candidates_count", CandidatesCount(r)), ("llm.response.finish_reason", FinishReason(r))]
  }

  /** The token counts `_set_response_attributes` copies from `usage_metadata`. */
  function MetadataWrites(r: Response): Writes {
    if r.usageMetadata.Some? then UsageWrites(r.usageMetadata.value) else []
  }

  lemma MetadataWritesAreTokens(r: Response)
    ensures forall j :: 0 <= j < |MetadataWrites(r)| ==> MetadataWrites(r)[j].0 in TokenKeys
  {
  }

  // ---------------------------------------------------------------------------
  // generate_content
  // ---------------------------------------------------------------------------

  /**
   * `kwargs.get('generation_config', {})`, on which the wrapper calls
   * `.get`: a dictionary, or the `AttributeError` anything else raises,
   * before any span is started.
   */
  function GenerationConfig(kwargs: Attrs): Result<Attrs, PyException> {
    var g := KwargOr(kwargs, "generation_config", PDict([]));
    if g.PDict? then Ok(g.entries) else Err(NoAttribute(g, "get"))
  }

  /** The bag's extra arguments: temperature and `max_output_tokens` from the generation config. */
  function GenerateExtras(config: Attrs): (extras: Attrs)
    ensures OrderedDict.Keys(extras) == ["temperature", "max_tokens"]
    ensures NoRequiredNames(extras) && OrderedDict.UniqueKeys(extras)
  {
    [("temperature", KwargOr(config, "temperature", PNone)), ("max_tokens", KwargOr(config, "max_output_tokens", PNone))]
  }

  /** The request writes: the common ones, then the first positional argument, stringified, when there is one. */
  function GenerateRequest(model: PyValue, args: seq<PyValue>, kwargs: Attrs): Writes {
    RequestWrites(model, kwargs) + [("llm.request.prompt", if |args| > 0 then Some(PStr(Str(args[0]))) else None)]
  }

  function GenerateHead(r: Response): Writes {
    [("llm.response.text", r.text), ("llm.response.content", PartText(r))] + ResponseHead(r)
  }

  /**
   * `_wrap_generate_content_sync`'s wrapper with the model name it uses:
   * the `AttributeError` of a generation config that is not a dictionary,
   * or the traced call.
   */
  function GenerateContent(model: PyValue, current: Parent, args: seq<PyValue>, kwargs: Attrs,
                           original: Outcome<Response>): Result<Call<Response>, PyException> {
    match GenerationConfig(kwargs)
    case Err(e) => Err(e)
    case Ok(config) =>
      var r := ResponseOf(original);
      Ok(AdapterCall(Provider, "google.generativeai.generate_content", "completion", model, GenerateExtras(config),
                     current, GenerateRequest(model, args, kwargs), original, GenerateHead(r) + MetadataWrites(r),
                     r.usageMetadata))
  }

  /** A generation config that is not a dictionary fails the call before any span; anything else is traced. */
  lemma GenerateContentFails(model: PyValue, current: Parent, args: seq<PyValue>, kwargs: Attrs, original: Outcome<Response>)
    ensures GenerateContent(model, current, args, kwargs, original).Err? <==>
            (OrderedDict.Get(kwargs, "generation_config").Some? && !OrderedDict.Get(kwargs, "generation_config").value.PDict?)
    ensures GenerateContent(model, current, args, kwargs, original).Err? ==>
            GenerateContent(model, current, args, kwargs, original).error.className == "AttributeError"
  {
    OrderedDict.GetDefined(kwargs, "generation_config");
  }

  const GenerateKeys: seq<string> :=
    ["llm.request.model", "llm.request.temperature", "llm.request.max_tokens", "llm.request.stream",
     "llm.request.prompt", "llm.response.text", "llm.response.content", "llm.response.model", "llm.response.id",
     "llm.response.candidates_count", "llm.response.finish_reason"] + TokenKeys

  lemma GenerateKeysAreDistinct()
    ensures PyTypes.Distinct(GenerateKeys)
  {
  }

  lemma GenerateKeysDistinct(model: PyValue, args: seq<PyValue>, kwargs: Attrs, r: Response)
    ensures PyTypes.Distinct(WriteKeys(GenerateRequest(model, args, kwargs)) + WriteKeys(GenerateHead(r)) + TokenKeys)
    ensures forall j :: 0 <= j < |MetadataWrites(r)| ==> MetadataWrites(r)[j].0 in TokenKeys
  {
    GenerateKeysAreDistinct();
    assert WriteKeys(GenerateRequest(model, args, kwargs)) + WriteKeys(GenerateHead(r)) + TokenKeys == GenerateKeys;
  }

  /**
   * A traced generate_content call: the response or exception passes through;
   * the client span "google.generativeai.generate_content" names the
   * provider, the operation "completion" and the model the wrapper used; it
   * ends once, OK exactly when the call returned; usage is recorded exactly
   * when a returned response has usage metadata.
   */
  lemma GenerateSpanProperties(model: PyValue, current: Parent, args: seq<PyValue>, kwargs: Attrs, original: Outcome<Response>)
    requires GenerationConfig(kwargs).Ok?
    ensures var c := GenerateContent(model, current, args, kwargs, original).value;
            && c.traced.outcome == original && c.traced.span.name == "google.generativeai.generate_content" && c.traced.span.kind == SpanKind.Client
            && OrderedDict.Get(c.traced.span.attributes, "llm.provider") == Some(PStr(Provider))
            && OrderedDict.Get(c.traced.span.attributes, "llm.operation.type") == Some(PStr("completion"))
            && OrderedDict.Get(c.traced.span.attributes, "llm.model") == Some(model)
            && CountEnds(c.traced.log) == 1 && (LastStatus(c.traced.log) == Some((StatusOk, None)) <==> original.Returned?)
            && c.usage == (if ResponseOf(original).usageMetadata.Some? then [UsageRecord(Provider, model, ResponseOf(original).usageMetadata.value)] else [])
            && OrderedDict.Get(c.traced.span.attributes, "llm.temperature") == ConfigValue(GenerationConfig(kwargs).value, "temperature")
            && OrderedDict.Get(c.traced.span.attributes, "llm.max_tokens") == ConfigValue(GenerationConfig(kwargs).value, "max_output_tokens")
  {
    var config := GenerationConfig(kwargs).value;
    AdapterCallShape(Provider, "google.generativeai.generate_content", "completion", model, GenerateExtras(config), current, GenerateRequest(model, args, kwargs), original, GenerateHead(ResponseOf(original)) + MetadataWrites(ResponseOf(original)), ResponseOf(original).usageMetadata);
    GenerateBag(model, config);
    var r := ResponseOf(original);
    var (uw, records) := HandleUsage(Provider, model, r.usageMetadata);
    TracedCallSpan("google.generativeai.generate_content", AdapterBag(Provider, model, "completion", GenerateExtras(config)),
                   current, GenerateRequest(model, args, kwargs), original, GenerateHead(r) + MetadataWrites(r) + uw, records);
  }

  /** `generation_config.get(name)` as the bag stores it: absent when the config has no such entry or holds `None`. */
  function ConfigValue(config: Attrs, name: string): Option<PyValue> {
    var v := KwargOr(config, name, PNone);
    if v == PNone then None else Some(v)
  }

  /**
   * The attribute bag of generate_content holds the generation config's
   * temperature and `max_output_tokens` under the LLM temperature and
   * max-tokens keys, each when the config gives a value other than `None`.
   */
  lemma GenerateBag(model: PyValue, config: Attrs)
    ensures var bag := AdapterBag(Provider, model, "completion", GenerateExtras(config));
            && OrderedDict.Get(bag, "llm.temperature") == ConfigValue(config, "temperature")
            && OrderedDict.Get(bag, "llm.max_tokens") == ConfigValue(config, "max_output_tokens")
  {
    var extras := GenerateExtras(config);
    var bag := AdapterBag(Provider, model, "completion", extras);
    var schema := PyTypes.LlmSchema;
    ExtrasLookup(config);
    GenerateBagNoClash(config);
    PyTypes.SchemasWellFormed();
    PyAttributes.CreateBagProperties(schema, [PStr(Provider), model, PStr("completion")], extras);
    assert bag == PyAttributes.CreateBag(schema, [PStr(Provider), model, PStr("completion")], extras).value;
    assert OrderedDict.Get(bag, "llm.temperature") == PyTypes.OptionalValue(schema.optional[3], extras);
    assert OrderedDict.Get(bag, "llm.max_tokens") == PyTypes.OptionalValue(schema.optional[5], extras);
  }

  /** The generation config's extras are optional LLM parameters and name none of the required ones. */
  lemma GenerateBagNoClash(config: Attrs)
    ensures var schema := PyTypes.LlmSchema;
            && |schema.optional| > 5
            && schema.optional[3] == PyTypes.Param("temperature", "llm.temperature")
            && schema.optional[5] == PyTypes.Param("max_tokens", "llm.max_tokens")
            && OrderedDict.UniqueKeys(GenerateExtras(config))
            && !PyAttributes.Clashes(schema, GenerateExtras(config))
            && "llm.temperature" !in OrderedDict.Keys(GenerateExtras(config))
            && "llm.max_tokens" !in OrderedDict.Keys(GenerateExtras(config))
  {
    var schema := PyTypes.LlmSchema;
    var extras := GenerateExtras(config);
    assert OrderedDict.Keys(extras) == ["temperature", "max_tokens"];
    assert schema.required == [PyTypes.Param("provider", "llm.provider"), PyTypes.Param("model", "llm.model"),
                               PyTypes.Param("operation_type", "llm.operation.type")];
  }

  lemma ExtrasLookup(config: Attrs)
    ensures OrderedDict.Get(GenerateExtras(config), "temperature") == Some(KwargOr(config, "temperature", PNone))
    ensures OrderedDict.Get(GenerateExtras(config), "max_tokens") == Some(KwargOr(config, "max_output_tokens", PNone))
  {
    var extras := GenerateExtras(config);
    assert OrderedDict.Keys(extras) == ["temperature", "max_tokens"];
  }



  /**
   * The span records the model and, when the call had a positional argument,
   * the first one stringified as the prompt.
   */
  lemma GenerateRequestAttributes(model: PyValue, current: Parent, args: seq<PyValue>, kwargs: Attrs, original: Outcome<Response>)
    requires GenerationConfig(kwargs).Ok?
    ensures var attrs := Assignments(GenerateContent(model, current, args, kwargs, original).value.traced.log);
            && OrderedDict.Get(attrs, "llm.request.model") == Some(model)
            && OrderedDict.Get(attrs, "llm.request.prompt") == (if |args| > 0 then Some(PStr(Str(args[0]))) else None)
  {
    GenerateRequestModel(model, current, args, kwargs, original);
    GenerateRequestPrompt(model, current, args, kwargs, original);
  }

  /** The `llm.request.model` part of `GenerateRequestAttributes`. */
  lemma GenerateRequestModel(model: PyValue, current: Parent, args: seq<PyValue>, kwargs: Attrs, original: Outcome<Response>)
    requires GenerationConfig(kwargs).Ok?
    ensures var attrs := Assignments(GenerateContent(model, current, args, kwargs, original).value.traced.log);
            OrderedDict.Get(attrs, "llm.request.model") == Some(model)
  {
    GenerateKeysDistinct(model, args, kwargs, ResponseOf(original));
    KeyAtBeforeTokens(Provider, "google.generativeai.generate_content", "completion", model, GenerateExtras(GenerationConfig(kwargs).value), current, GenerateRequest(model, args, kwargs), original, GenerateHead(ResponseOf(original)), MetadataWrites(ResponseOf(original)), ResponseOf(original).usageMetadata, 0);
  }

  /** The `llm.request.prompt` part of `GenerateRequestAttributes`. */
  lemma GenerateRequestPrompt(model: PyValue, current: Parent, args: seq<PyValue>, kwargs: Attrs, original: Outcome<Response>)
    requires GenerationConfig(kwargs).Ok?
    ensures var attrs := Assignments(GenerateContent(model, current, args, kwargs, original).value.traced.log);
            OrderedDict.Get(attrs, "llm.request.prompt") == (if |args| > 0 then Some(PStr(Str(args[0]))) else None)
  {
    GenerateKeysDistinct(model, args, kwargs, ResponseOf(original));
    KeyAtBeforeTokens(Provider, "google.generativeai.generate_content", "completion", model, GenerateExtras(GenerationConfig(kwargs).value), current, GenerateRequest(model, args, kwargs), original, GenerateHead(ResponseOf(original)), MetadataWrites(ResponseOf(original)), ResponseOf(original).usageMetadata, 4);
  }

  /**
   * After a return the span holds the response text, the first candidate's
   * first part's text, the number of candidates and the first one's finish
   * reason, each when present; after an exception none of them.
   */
  lemma GenerateResponseAttributes(model: PyValue, current: Parent, args: seq<PyValue>, kwargs: Attrs, original: Outcome<Response>)
    requires GenerationConfig(kwargs).Ok?
    ensures var attrs := Assignments(GenerateContent(model, current, args, kwargs, original).value.traced.log);
            && OrderedDict.Get(attrs, "llm.response.text") == (if original.Returned? then original.value.text else None)
            && OrderedDict.Get(attrs, "llm.response.content") == (if original.Returned? then PartText(original.value) else None)
            && OrderedDict.Get(attrs, "llm.response.candidates_count") == (if original.Returned? then CandidatesCount(original.value) else None)
            && OrderedDict.Get(attrs, "llm.response.finish_reason") == (if original.Returned? then FinishReason(original.value) else None)
  {
    GenerateResponseText(model, current, args, kwargs, original);
    GenerateResponseContent(model, current, args, kwargs, original);
    GenerateResponseCandidatesCount(model, current, args, kwargs, original);
    GenerateResponseFinishReason(model, current, args, kwargs, original);
  }

  /** The `llm.response.text` part of `GenerateResponseAttributes`. */
  lemma GenerateResponseText(model: PyValue, current: Parent, args: seq<PyValue>, kwargs: Attrs, original: Outcome<Response>)
    requires GenerationConfig(kwargs).Ok?
    ensures var attrs := Assignments(GenerateContent(model, current, args, kwargs, original).value.traced.log);
            OrderedDict.Get(attrs, "llm.response.text") == (if original.Returned? then original.value.text else None)
  {
    GenerateKeysDistinct(model, args, kwargs, ResponseOf(original));
    KeyAtBeforeTokens(Provider, "google.generativeai.generate_content", "completion", model, GenerateExtras(GenerationConfig(kwargs).value), current, GenerateRequest(model, args, kwargs), original, GenerateHead(ResponseOf(original)), MetadataWrites(ResponseOf(original)), ResponseOf(original).usageMetadata, 5);
  }

  /** The `llm.response.content` part of `GenerateResponseAttributes`. */
  lemma GenerateResponseContent(model: PyValue, current: Parent, args: seq<PyValue>, kwargs: Attrs, original: Outcome<Response>)
    requires GenerationConfig(kwargs).Ok?
    ensures var attrs := Assignments(GenerateContent(model, current, args, kwargs, original).value.traced.log);
            OrderedDict.Get(attrs, "llm.response.content") == (if original.Returned? then PartText(original.value) else None)
  {
    GenerateKeysDistinct(model, args, kwargs, ResponseOf(original));
    KeyAtBeforeTokens(Provider, "google.generativeai.generate_content", "completion", model, GenerateExtras(GenerationConfig(kwargs).value), current, GenerateRequest(model, args, kwargs), original, GenerateHead(ResponseOf(original)), MetadataWrites(ResponseOf(original)), ResponseOf(original).usageMetadata, 6);
  }

  /** The `llm.response.candidates_count` part of `GenerateResponseAttributes`. */
  lemma GenerateResponseCandidatesCount(model: PyValue, current: Parent, args: seq<PyValue>, kwargs: Attrs, original: Outcome<Response>)
    requires GenerationConfig(kwargs).Ok?
    ensures var attrs := Assignments(GenerateContent(model, current, args, kwargs, original).value.traced.log);
            OrderedDict.Get(attrs, "llm.response.candidates_count") == (if original.Returned? then CandidatesCount(original.value) else None)
  {
    GenerateKeysDistinct(model, args, kwargs, ResponseOf(original));
    assert GenerateHead(ResponseOf(original))[4] == ("llm.response.candidates_count", CandidatesCount(ResponseOf(original)));
    KeyInHead(Provider, "google.generativeai.generate_content", "completion", model, GenerateExtras(GenerationConfig(kwargs).value), current, GenerateRequest(model, args, kwargs), original, GenerateHead(ResponseOf(original)), MetadataWrites(ResponseOf(original)), ResponseOf(original).usageMetadata, 4);
  }

  /** The `llm.response.finish_reason` part of `GenerateResponseAttributes`. */
  lemma GenerateResponseFinishReason(model: PyValue, current: Parent, args: seq<PyValue>, kwargs: Attrs, original: Outcome<Response>)
    requires GenerationConfig(kwargs).Ok?
    ensures var attrs := Assignments(GenerateContent(model, current, args, kwargs, original).value.traced.log);
            OrderedDict.Get(attrs, "llm.response.finish_reason") == (if original.Returned? then FinishReason(original.value) else None)
  {
    GenerateKeysDistinct(model, args, kwargs, ResponseOf(original));
    assert GenerateHead(ResponseOf(original))[5] == ("llm.response.finish_reason", FinishReason(ResponseOf(original)));
    KeyInHead(Provider, "google.generativeai.generate_content", "completion", model, GenerateExtras(GenerationConfig(kwargs).value), current, GenerateRequest(model, args, kwargs), original, GenerateHead(ResponseOf(original)), MetadataWrites(ResponseOf(original)), ResponseOf(original).usageMetadata, 5);
  }

  /**
   * After a return with `usage_metadata`, the span carries its token
   * counts (the adapter writes them twice, with the same values) and one
   * usage record maps them as prompt, completion and total tokens.
   */
  lemma GenerateTokens(model: PyValue, current: Parent, args: seq<PyValue>, kwargs: Attrs, original: Outcome<Response>)
    requires GenerationConfig(kwargs).Ok? && original.Returned? && original.value.usageMetadata.Some?
    ensures var c := GenerateContent(model, current, args, kwargs, original).value;
            var u := original.value.usageMetadata.value;
            && (u.promptTokens.Some? ==> OrderedDict.Get(Assignments(c.traced.log), "llm.prompt.tokens") == AsInt(u.promptTokens))
            && (u.completionTokens.Some? ==>
                  OrderedDict.Get(Assignments(c.traced.log), "llm.completion.tokens") == AsInt(u.completionTokens))
            && (u.totalTokens.Some? ==> OrderedDict.Get(Assignments(c.traced.log), "llm.total.tokens") == AsInt(u.totalTokens))
            && c.usage == [UsageRecord(Provider, model, u)]
  {
    var r := ResponseOf(original);
    var u := r.usageMetadata.value;
    var extras := GenerateExtras(GenerationConfig(kwargs).value);
    var request, response := GenerateRequest(model, args, kwargs), GenerateHead(r) + MetadataWrites(r);
    var c := AdapterCall(Provider, "google.generativeai.generate_content", "completion", model, extras, current,
                         request, original, response, r.usageMetadata);
    assert GenerateContent(model, current, args, kwargs, original) == Ok(c);
    assert && (u.promptTokens.Some? ==> OrderedDict.Get(Assignments(c.traced.log), "llm.prompt.tokens") == AsInt(u.promptTokens))
           && (u.completionTokens.Some? ==>
                 OrderedDict.Get(Assignments(c.traced.log), "llm.completion.tokens") == AsInt(u.completionTokens))
           && (u.totalTokens.Some? ==> OrderedDict.Get(Assignments(c.traced.log), "llm.total.tokens") == AsInt(u.totalTokens))
    by {
      AdapterCallTokens(Provider, "google.generativeai.generate_content", "completion", model, extras, current,
                        request, original, response, r.usageMetadata);
    }
    assert c.usage == [UsageRecord(Provider, model, u)] by {
      AdapterCallShape(Provider, "google.generativeai.generate_content", "completion", model, extras, current,
                       request, original, response, r.usageMetadata);
    }
  }

  // ---------------------------------------------------------------------------
  // start_chat
  // ---------------------------------------------------------------------------

  /** `_wrap_start_chat_sync`'s wrapper: no prompt, no usage; the session goes through `_set_response_attributes`. */
  function StartChat(model: PyValue, current: Parent, kwargs: Attrs, original: Outcome<Response>): Call<Response> {
    var r := ResponseOf(original);
    AdapterCall(Provider, "google.generativeai.start_chat", "chat", model, [], current, RequestWrites(model, kwargs),
                original, ResponseHead(r) + MetadataWrites(r), None)
  }

  const StartChatKeys: seq<string> :=
    ["llm.request.model", "llm.request.temperature", "llm.request.max_tokens", "llm.request.stream",
     "llm.response.model", "llm.response.id", "llm.response.candidates_count", "llm.response.finish_reason"] + TokenKeys

  lemma StartChatKeysAreDistinct()
    ensures PyTypes.Distinct(StartChatKeys)
  {
  }

  lemma StartChatKeysDistinct(model: PyValue, kwargs: Attrs, r: Response)
    ensures PyTypes.Distinct(WriteKeys(RequestWrites(model, kwargs)) + WriteKeys(ResponseHead(r)) + TokenKeys)
    ensures forall j :: 0 <= j < |MetadataWrites(r)| ==> MetadataWrites(r)[j].0 in TokenKeys
  {
    StartChatKeysAreDistinct();
    assert WriteKeys(RequestWrites(model, kwargs)) + WriteKeys(ResponseHead(r)) + TokenKeys == StartChatKeys;
  }

  /**
   * A traced start_chat call: the session or exception passes through; the
   * span "google.generativeai.start_chat" has operation "chat"; no usage is
   * ever recorded.
   */
  lemma StartChatSpanProperties(model: PyValue, current: Parent, kwargs: Attrs, original: Outcome<Response>)
    ensures var c := StartChat(model, current, kwargs, original);
            && c.traced.outcome == original && c.traced.span.name == "google.generativeai.start_chat" && c.traced.span.kind == SpanKind.Client
            && OrderedDict.Get(c.traced.span.attributes, "llm.provider") == Some(PStr(Provider))
            && OrderedDict.Get(c.traced.span.attributes, "llm.operation.type") == Some(PStr("chat"))
            && OrderedDict.Get(c.traced.span.attributes, "llm.model") == Some(model)
            && CountEnds(c.traced.log) == 1 && (LastStatus(c.traced.log) == Some((StatusOk, None)) <==> original.Returned?)
            && c.usage == []
  {
    AdapterCallShape(Provider, "google.generativeai.start_chat", "chat", model, [], current, RequestWrites(model, kwargs), original, ResponseHead(ResponseOf(original)) + MetadataWrites(ResponseOf(original)), None);
  }

  /**
   * The start_chat span records the model the wrapper used.
   */
  lemma StartChatRequestAttributes(model: PyValue, current: Parent, kwargs: Attrs, original: Outcome<Response>)
    ensures var attrs := Assignments(StartChat(model, current, kwargs, original).traced.log);
            && OrderedDict.Get(attrs, "llm.request.model") == Some(model)
  {
    StartChatKeysDistinct(model, kwargs, ResponseOf(original));
    KeyAtBeforeTokens(Provider, "google.generativeai.start_chat", "chat", model, [], current, RequestWrites(model, kwargs), original, ResponseHead(ResponseOf(original)), MetadataWrites(ResponseOf(original)), None, 0);
  }

  /**
   * After a return the span holds the session id and number of candidates,
   * when present; after an exception neither.
   */
  lemma StartChatResponseAttributes(model: PyValue, current: Parent, kwargs: Attrs, original: Outcome<Response>)
    ensures var attrs := Assignments(StartChat(model, current, kwargs, original).traced.log);
            && OrderedDict.Get(attrs, "llm.response.id") == (if original.Returned? then original.value.id else None)
            && OrderedDict.Get(attrs, "llm.response.candidates_count") == (if original.Returned? then CandidatesCount(original.value) else None)
  {
    StartChatResponseId(model, current, kwargs, original);
    StartChatResponseCandidatesCount(model, current, kwargs, original);
  }

  /** The `llm.response.id` part of `StartChatResponseAttributes`. */
  lemma StartChatResponseId(model: PyValue, current: Parent, kwargs: Attrs, original: Outcome<Response>)
    ensures var attrs := Assignments(StartChat(model, current, kwargs, original).traced.log);
            OrderedDict.Get(attrs, "llm.response.id") == (if original.Returned? then original.value.id else None)
  {
    StartChatKeysDistinct(model, kwargs, ResponseOf(original));
    KeyAtBeforeTokens(Provider, "google.generativeai.start_chat", "chat", model, [], current, RequestWrites(model, kwargs), original, ResponseHead(ResponseOf(original)), MetadataWrites(ResponseOf(original)), None, 5);
  }

  /** The `llm.response.candidates_count` part of `StartChatResponseAttributes`. */
  lemma StartChatResponseCandidatesCount(model: PyValue, current: Parent, kwargs: Attrs, original: Outcome<Response>)
    ensures var attrs := Assignments(StartChat(model, current, kwargs, original).traced.log);
            OrderedDict.Get(attrs, "llm.response.candidates_count") == (if original.Returned? then CandidatesCount(original.value) else None)
  {
    StartChatKeysDistinct(model, kwargs, ResponseOf(original));
    KeyAtBeforeTokens(Provider, "google.generativeai.start_chat", "chat", model, [], current, RequestWrites(model, kwargs), original, ResponseHead(ResponseOf(original)), MetadataWrites(ResponseOf(original)), None, 6);
  }

  // ---------------------------------------------------------------------------
  // The model name, as written and as meant
  // ---------------------------------------------------------------------------

  /**
   * As written, a `generate_content` call on a model created as
   * "gemini-pro" is traced with model "unknown"; reading the instance's
   * `model_name` puts the instance's model on the span.
   */
  lemma ModelNameDefect(current: Parent, args: seq<PyValue>, kwargs: Attrs, original: Outcome<Response>)
    requires GenerationConfig(kwargs).Ok?
    ensures var m := ModelInstance(7, Some(PStr("gemini-pro")));
            var asWritten := GenerateContent(ModelAsWritten(m), current, args, kwargs, original).value;
            var intended := GenerateContent(InstanceModel(m), current, args, kwargs, original).value;
            && OrderedDict.Get(asWritten.traced.span.attributes, "llm.model") == Some(PStr("unknown"))
            && OrderedDict.Get(intended.traced.span.attributes, "llm.model") == Some(PStr("gemini-pro"))
  {
    var m := ModelInstance(7, Some(PStr("gemini-pro")));
    GenerateSpanProperties(ModelAsWritten(m), current, args, kwargs, original);
    GenerateSpanProperties(InstanceModel(m), current, args, kwargs, original);
  }
}
