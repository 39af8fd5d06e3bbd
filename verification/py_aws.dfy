/**
 * The AWS Bedrock adapter (`providers/aws.py`): it replaces the module
 * function `boto3.client` with a wrapper that hooks every
 * "bedrock-runtime" client it creates, wrapping `invoke_model` and
 * `invoke_model_with_response_stream`. The operation type comes from the
 * model id; no usage object is read.
 */
module PyAws {
  import opened Wrappers
  import opened PyValues
  import opened Spans
  import OrderedDict
  import opened PyAdapterBase
  import opened PyAdapterCall
  import PyTypes
  import Text

  const Provider: string := "aws"

  /**
   * What `instrument` replaces: the module function `boto3.client`. The
   * library counts as importable when both `boto3` and
   * `botocore.client.BaseClient` import.
   */
  const Functions: seq<string> := ["client"]

  // ---------------------------------------------------------------------------
  // Instrumenting
  // ---------------------------------------------------------------------------

  function Instrument(a: Adapter, lib: Library): (Adapter, Library) {
    InstrumentConstructors(a, lib, Functions)
  }

  function Uninstrument(a: Adapter, lib: Library): (Adapter, Library)
    requires Saved(a, Functions)
  {
    UninstrumentConstructors(a, lib, Functions)
  }

  /**
   * Instrumenting a fresh adapter against an installed boto3 wraps
   * `boto3.client`; a second `instrument` changes nothing; `uninstrument`
   * puts the very function back, and on an adapter that is not
   * instrumented it changes nothing. A missing boto3 changes nothing.
   */
  lemma InstrumentLifecycle(lib: Library)
    ensures var (a1, lib1) := Instrument(NewAdapter(Provider), lib);
            && Instrument(a1, lib1) == (a1, lib1)
            && Uninstrument(NewAdapter(Provider), lib) == (NewAdapter(Provider), lib)
            && (Importable(lib, Functions) ==>
                  && a1.instrumented
                  && lib1.inits["client"] == Wrapped(Provider, lib.inits["client"])
                  && Uninstrument(a1, lib1).1 == lib && !Uninstrument(a1, lib1).0.instrumented)
            && (!Importable(lib, Functions) ==> !a1.instrumented && lib1 == lib)
  {
    ConstructorLifecycle(NewAdapter(Provider), lib, Functions);
    assert "client" in Functions;
  }

  /** The two methods the hook wraps on a Bedrock runtime client whose `id()` is `client`. */
  function ClientTargets(client: nat): seq<Target> {
    [Target(Some(client), "invoke_model", "_wrap_invoke_model_sync"),
     Target(Some(client), "invoke_model_with_response_stream", "_wrap_invoke_model_stream_sync")]
  }

  /**
   * The wrapped `boto3.client(service_name, ...)`: the original creates
   * the client `client`; only a "bedrock-runtime" client is hooked; the
   * client is returned either way.
   */
  function ClientHook(a: Adapter, slots: Slots, serviceName: string, client: nat): (r: (Adapter, Slots, nat)) {
    var (a', slots') := if serviceName == "bedrock-runtime" then PatchAll(a, slots, ClientTargets(client)) else (a, slots);
    (a', slots', client)
  }

  /**
   * The hook returns the client the original created. For any service
   * other than "bedrock-runtime" nothing else changes; for a Bedrock
   * runtime client each of the two methods it has is wrapped, and every
   * other slot is left alone.
   */
  lemma ClientHookProperties(a: Adapter, slots: Slots, serviceName: string, client: nat)
    ensures ClientHook(a, slots, serviceName, client).2 == client
    ensures serviceName != "bedrock-runtime" ==> ClientHook(a, slots, serviceName, client) == (a, slots, client)
    ensures serviceName == "bedrock-runtime" ==>
              var (a', slots', _) := ClientHook(a, slots, serviceName, client);
              var invoke, stream := (client, "invoke_model"), (client, "invoke_model_with_response_stream");
              && slots'.Keys == slots.Keys
              && a'.instrumented == a.instrumented && a'.constructors == a.constructors
              && (invoke in slots ==> slots'[invoke] == Wrapped("_wrap_invoke_model_sync", slots[invoke]))
              && (stream in slots ==> slots'[stream] == Wrapped("_wrap_invoke_model_stream_sync", slots[stream]))
              && (forall s :: s in slots && s != invoke && s != stream ==> slots'[s] == slots[s])
  {
    if serviceName == "bedrock-runtime" {
      var ts := ClientTargets(client);
      PatchAllProperties(a, slots, ts);
      assert Aims(ts[0], (client, "invoke_model"));
      assert Aims(ts[1], (client, "invoke_model_with_response_stream"));
      assert forall s: (nat, string), i ::
               0 <= i < |ts| && s != (client, "invoke_model") && s != (client, "invoke_model_with_response_stream") ==>
               !Aims(ts[i], s);
    }
  }

  // ---------------------------------------------------------------------------
  // The operation type
  // ---------------------------------------------------------------------------

  /**
   * `_get_operation_type_from_model(model)`: "chat" for Claude models,
   * "embedding" for Titan models, "completion" for everything else (the
   * "llama" branch gives the same answer as the fallback). The test
   * lower-cases the id, so a model id that is not a string raises
   * `AttributeError`.
   */
  function OperationType(model: PyValue): Result<string, PyException> {
    if !model.PStr? then Err(NoAttribute(model, "lower"))
    else
      var m := Text.Lower(model.s);
      if Text.Contains(m, "claude") then Ok("chat")
      else if Text.Contains(m, "titan") then Ok("embedding")
      else if Text.Contains(m, "llama") then Ok("completion")
      else Ok("completion")
  }

  /**
   * The operation type fails exactly on a model id that is not a string,
   * with `AttributeError`. Otherwise it is "chat" exactly when "claude"
   * occurs in the lower-cased id, "embedding" exactly when "titan" occurs
   * and "claude" does not, and "completion" exactly when neither occurs;
   * so the test ignores case.
   */
  lemma OperationTypeCases(model: PyValue)
    ensures OperationType(model).Err? <==> !model.PStr?
    ensures OperationType(model).Err? ==> OperationType(model).error.className == "AttributeError"
    ensures model.PStr? ==>
              var m := Text.Lower(model.s);
              var op := OperationType(model).value;
              && (op == "chat" <==> Text.Occurs(m, "claude"))
              && (op == "embedding" <==> !Text.Occurs(m, "claude") && Text.Occurs(m, "titan"))
              && (op == "completion" <==> !Text.Occurs(m, "claude") && !Text.Occurs(m, "titan"))
              && OperationType(PStr(m)) == OperationType(model)
  {
    if model.PStr? {
      var m := Text.Lower(model.s);
      Text.ContainsIffOccurs(m, "claude");
      Text.ContainsIffOccurs(m, "titan");
      Text.LowerIdempotent(model.s);
    }
  }

  // ---------------------------------------------------------------------------
  // Responses
  // ---------------------------------------------------------------------------

  /**
   * A response as the wrappers read it. boto3 returns a dictionary, whose
   * "body" (the length of what its `read()` gives) and "ResponseMetadata"
   * are keys. An object response stands for a mapping that also exposes
   * its body and metadata as attributes, so that `hasattr` finds them and
   * subscripting reads the same values; it may carry a model and an id as
   * attributes too.
   */
  datatype Response =
    | DictResponse(body: Option<nat>, metadata: Option<Attrs>)
    | ObjectResponse(body: Option<nat>, model: Option<PyValue>, id: Option<PyValue>, metadata: Option<Attrs>)

  function ResponseOf(original: Outcome<Response>): Response {
    if original.Returned? then original.value else DictResponse(None, None)
  }

  /** The response's model and id attributes: a dictionary has neither. */
  function ModelAttr(r: Response): Option<PyValue> {
    if r.ObjectResponse? then r.model else None
  }

  function IdAttr(r: Response): Option<PyValue> {
    if r.ObjectResponse? then r.id else None
  }

  /** What `hasattr` finds of the response's body and metadata: nothing on a dictionary. */
  function AttributeView(r: Response): Response {
    if r.DictResponse? then DictResponse(None, None) else r
  }

  /** The request id and the HTTP status code, each when the metadata holds it. */
  function MetadataWrites(metadata: Option<Attrs>): Writes {
    [("llm.response.request_id", if metadata.Some? then OrderedDict.Get(metadata.value, "RequestId") else None),
     ("llm.response.http_status", if metadata.Some? then OrderedDict.Get(metadata.value, "HTTPStatusCode") else None)]
  }

  /**
   * The response writes of `invoke_model`, reading the body and the
   * metadata wherever the response holds them: the body's size, the
   * inherited model and id, the request id and status, and the "has body"
   * flag that the `_handle_usage_metrics` override sets.
   */
  function InvokeResponse(r: Response): Writes {
    [("llm.response.body_size", if r.body.Some? then Some(PInt(r.body.value)) else None)]
      + ResponseWrites(ModelAttr(r), IdAttr(r)) + MetadataWrites(r.metadata)
      + [("llm.response.has_body", if r.body.Some? then Some(PBool(true)) else None)]
  }

  /** The same writes as the source guards them: `hasattr`, which a dictionary's keys never satisfy. */
  function InvokeResponseAsWritten(r: Response): Writes {
    InvokeResponse(AttributeView(r))
  }

  /** The response writes of the stream wrapper: the inherited model and id, then the metadata's. */
  function StreamResponse(r: Response): Writes {
    ResponseWrites(ModelAttr(r), IdAttr(r)) + MetadataWrites(r.metadata)
  }

  function StreamResponseAsWritten(r: Response): Writes {
    StreamResponse(AttributeView(r))
  }

  /**
   * As written, a dictionary response, which is what boto3 returns, sets
   * none of the body, metadata, model or id attributes, whatever it holds;
   * for an object response, which both `hasattr` and subscripting see, the
   * guards read what the response holds.
   */
  lemma DictResponseSetsNothing(r: Response)
    ensures r.DictResponse? ==> Sets(InvokeResponseAsWritten(r)) == [] && Sets(StreamResponseAsWritten(r)) == []
    ensures r.ObjectResponse? ==> InvokeResponseAsWritten(r) == InvokeResponse(r) && StreamResponseAsWritten(r) == StreamResponse(r)
  {
    if r.DictResponse? {
      var ws, ss := InvokeResponseAsWritten(r), StreamResponseAsWritten(r);
      SetsSkipped(ws);
      SetsSkipped(ss);
    }
  }

  /**
   * The defect, on the shape boto3 returns: a dictionary with a body of 42
   * bytes and metadata holding a request id and status 200. As written the
   * wrapper records none of it; read by key, it records all four.
   */
  lemma DictResponseDefect()
    ensures var r := DictResponse(Some(42), Some([("RequestId", PStr("req-1")), ("HTTPStatusCode", PInt(200))]));
            && Sets(InvokeResponseAsWritten(r)) == []
            && LastValue(InvokeResponse(r), "llm.response.body_size") == Some(PInt(42))
            && LastValue(InvokeResponse(r), "llm.response.request_id") == Some(PStr("req-1"))
            && LastValue(InvokeResponse(r), "llm.response.http_status") == Some(PInt(200))
            && LastValue(InvokeResponse(r), "llm.response.has_body") == Some(PBool(true))
  {
    DictResponseSetsNothing(DefectResponse());
    DefectRead(0);
    DefectRead(3);
    DefectRead(4);
    DefectRead(5);
  }

  /** The dictionary response the defect is shown on. */
  function DefectResponse(): Response {
    DictResponse(Some(42), Some([("RequestId", PStr("req-1")), ("HTTPStatusCode", PInt(200))]))
  }

  /** Read by key, the defect's response yields these writes, each naming its own key. */
  lemma DefectWrites()
    ensures var ws := InvokeResponse(DefectResponse());
            && WriteKeys(ws) == ["llm.response.body_size", "llm.response.model", "llm.response.id",
                                 "llm.response.request_id", "llm.response.http_status", "llm.response.has_body"]
            && ws[0].1 == Some(PInt(42)) && ws[3].1 == Some(PStr("req-1"))
            && ws[4].1 == Some(PInt(200)) && ws[5].1 == Some(PBool(true))
  {
  }

  /** Each of the four keys the defect's response fills holds its write's value. */
  lemma DefectRead(i: nat)
    requires i in {0, 3, 4, 5}
    ensures var ws := InvokeResponse(DefectResponse());
            i < |ws| && LastValue(ws, ws[i].0) == ws[i].1
  {
    var ws := InvokeResponse(DefectResponse());
    DefectWrites();
    var keys := WriteKeys(ws);
    assert forall j :: 0 <= j < |ws| && j != i ==> keys[j] != keys[i];
    LastValueOnce(ws, i);
  }

  // ---------------------------------------------------------------------------
  // Requests
  // ---------------------------------------------------------------------------

  /** `kwargs.get('modelId', 'unknown')`. */
  function ModelId(kwargs: Attrs): PyValue {
    KwargOr(kwargs, "modelId", PStr("unknown"))
  }

  /** The Bedrock request writes: region, accept and content type, each when the caller passed it. */
  function BedrockWrites(kwargs: Attrs): Writes {
    [("llm.request.region", OrderedDict.Get(kwargs, "region")),
     ("llm.request.accept", OrderedDict.Get(kwargs, "accept")),
     ("llm.request.content_type", OrderedDict.Get(kwargs, "contentType"))]
  }

  /** `invoke_model`'s request writes: the common ones, the model id again, then the Bedrock ones. */
  function InvokeRequest(model: PyValue, kwargs: Attrs): Writes {
    RequestWrites(model, kwargs) + [("llm.request.model_id", Some(model))] + BedrockWrites(kwargs)
  }

  /** The stream wrapper's: the same, with `llm.request.stream` set to True after the common writes. */
  function StreamRequest(model: PyValue, kwargs: Attrs): Writes {
    RequestWrites(model, kwargs) + [("llm.request.model_id", Some(model)), ("llm.request.stream", Some(PBool(true)))]
      + BedrockWrites(kwargs)
  }

  /** The stream request without the common `stream` write, which the later one overrides. */
  function ReducedStreamRequest(model: PyValue, kwargs: Attrs): Writes {
    RequestWrites(model, kwargs)[..3] + [("llm.request.model_id", Some(model)), ("llm.request.stream", Some(PBool(true)))]
      + BedrockWrites(kwargs)
  }

  // ---------------------------------------------------------------------------
  // invoke_model
  // ---------------------------------------------------------------------------

  /**
   * `_wrap_invoke_model_sync`'s wrapper called with `kwargs`, the original
   * method ending with `original`. A model id that is not a string fails
   * before any span.
   */
  function InvokeModel(current: Parent, kwargs: Attrs, original: Outcome<Response>): Result<Call<Response>, PyException> {
    var model := ModelId(kwargs);
    match OperationType(model)
    case Err(e) => Err(e)
    case Ok(op) =>
      Ok(AdapterCall(Provider, "aws.bedrock.invoke_model", op, model, [], current, InvokeRequest(model, kwargs), original,
                     InvokeResponse(ResponseOf(original)), None))
  }

  const InvokeKeys: seq<string> :=
    ["llm.request.model", "llm.request.temperature", "llm.request.max_tokens", "llm.request.stream",
     "llm.request.model_id", "llm.request.region", "llm.request.accept", "llm.request.content_type",
     "llm.response.body_size", "llm.response.model", "llm.response.id", "llm.response.request_id",
     "llm.response.http_status", "llm.response.has_body"] + TokenKeys

  lemma InvokeKeysAreDistinct()
    ensures PyTypes.Distinct(InvokeKeys)
  {
  }

  lemma InvokeKeysDistinct(model: PyValue, kwargs: Attrs, r: Response)
    ensures PyTypes.Distinct(WriteKeys(InvokeRequest(model, kwargs)) + WriteKeys(InvokeResponse(r)) + TokenKeys)
  {
    InvokeKeysAreDistinct();
    assert WriteKeys(InvokeRequest(model, kwargs)) + WriteKeys(InvokeResponse(r)) + TokenKeys == InvokeKeys;
  }

  /**
   * A traced invoke_model call: the response or exception passes through; the
   * client span "aws.bedrock.invoke_model" names the provider, the operation
   * the model id gives and the model id, "unknown" when the call passes none;
   * it ends once, OK exactly when the call returned; no usage is recorded.
   */
  lemma InvokeSpanProperties(current: Parent, kwargs: Attrs, original: Outcome<Response>)
    requires OperationType(ModelId(kwargs)).Ok?
    ensures var c := InvokeModel(current, kwargs, original).value;
            && c.traced.outcome == original && c.traced.span.name == "aws.bedrock.invoke_model" && c.traced.span.kind == SpanKind.Client
            && OrderedDict.Get(c.traced.span.attributes, "llm.provider") == Some(PStr(Provider))
            && OrderedDict.Get(c.traced.span.attributes, "llm.operation.type") == Some(PStr(OperationType(ModelId(kwargs)).value))
            && OrderedDict.Get(c.traced.span.attributes, "llm.model") == Some(ModelId(kwargs))
            && CountEnds(c.traced.log) == 1 && (LastStatus(c.traced.log) == Some((StatusOk, None)) <==> original.Returned?)
            && c.usage == []
  {
    AdapterCallShape(Provider, "aws.bedrock.invoke_model", OperationType(ModelId(kwargs)).value, ModelId(kwargs), [], current, InvokeRequest(ModelId(kwargs), kwargs), original, InvokeResponse(ResponseOf(original)), None);
  }

  /**
   * The span records the model id both as the request model and as the model
   * id.
   */
  lemma InvokeRequestAttributes(current: Parent, kwargs: Attrs, original: Outcome<Response>)
    requires OperationType(ModelId(kwargs)).Ok?
    ensures var attrs := Assignments(InvokeModel(current, kwargs, original).value.traced.log);
            && OrderedDict.Get(attrs, "llm.request.model") == Some(ModelId(kwargs))
            && OrderedDict.Get(attrs, "llm.request.model_id") == Some(ModelId(kwargs))
  {
    InvokeRequestModel(current, kwargs, original);
    InvokeRequestModelId(current, kwargs, original);
  }

  /** The `llm.request.model` part of `InvokeRequestAttributes`. */
  lemma InvokeRequestModel(current: Parent, kwargs: Attrs, original: Outcome<Response>)
    requires OperationType(ModelId(kwargs)).Ok?
    ensures var attrs := Assignments(InvokeModel(current, kwargs, original).value.traced.log);
            OrderedDict.Get(attrs, "llm.request.model") == Some(ModelId(kwargs))
  {
    InvokeKeysDistinct(ModelId(kwargs), kwargs, ResponseOf(original));
    KeyAt(Provider, "aws.bedrock.invoke_model", OperationType(ModelId(kwargs)).value, ModelId(kwargs), [], current, InvokeRequest(ModelId(kwargs), kwargs), original, InvokeResponse(ResponseOf(original)), None, 0);
  }

  /** The `llm.request.model_id` part of `InvokeRequestAttributes`. */
  lemma InvokeRequestModelId(current: Parent, kwargs: Attrs, original: Outcome<Response>)
    requires OperationType(ModelId(kwargs)).Ok?
    ensures var attrs := Assignments(InvokeModel(current, kwargs, original).value.traced.log);
            OrderedDict.Get(attrs, "llm.request.model_id") == Some(ModelId(kwargs))
  {
    InvokeKeysDistinct(ModelId(kwargs), kwargs, ResponseOf(original));
    KeyAt(Provider, "aws.bedrock.invoke_model", OperationType(ModelId(kwargs)).value, ModelId(kwargs), [], current, InvokeRequest(ModelId(kwargs), kwargs), original, InvokeResponse(ResponseOf(original)), None, 4);
  }

  /**
   * After a return the span holds the body's size and the has-body flag
   * exactly when the response has a body; after an exception neither.
   */
  lemma InvokeResponseAttributes(current: Parent, kwargs: Attrs, original: Outcome<Response>)
    requires OperationType(ModelId(kwargs)).Ok?
    ensures var attrs := Assignments(InvokeModel(current, kwargs, original).value.traced.log);
            && OrderedDict.Get(attrs, "llm.response.body_size") == (if original.Returned? then (if original.value.body.Some? then Some(PInt(original.value.body.value)) else None) else None)
            && OrderedDict.Get(attrs, "llm.response.has_body") == (if original.Returned? then (if original.value.body.Some? then Some(PBool(true)) else None) else None)
  {
    InvokeResponseBodySize(current, kwargs, original);
    InvokeResponseHasBody(current, kwargs, original);
  }

  /** The `llm.response.body_size` part of `InvokeResponseAttributes`. */
  lemma InvokeResponseBodySize(current: Parent, kwargs: Attrs, original: Outcome<Response>)
    requires OperationType(ModelId(kwargs)).Ok?
    ensures var attrs := Assignments(InvokeModel(current, kwargs, original).value.traced.log);
            OrderedDict.Get(attrs, "llm.response.body_size") == (if original.Returned? then (if original.value.body.Some? then Some(PInt(original.value.body.value)) else None) else None)
  {
    InvokeKeysDistinct(ModelId(kwargs), kwargs, ResponseOf(original));
    KeyAt(Provider, "aws.bedrock.invoke_model", OperationType(ModelId(kwargs)).value, ModelId(kwargs), [], current, InvokeRequest(ModelId(kwargs), kwargs), original, InvokeResponse(ResponseOf(original)), None, 8);
  }

  /** The `llm.response.has_body` part of `InvokeResponseAttributes`. */
  lemma InvokeResponseHasBody(current: Parent, kwargs: Attrs, original: Outcome<Response>)
    requires OperationType(ModelId(kwargs)).Ok?
    ensures var attrs := Assignments(InvokeModel(current, kwargs, original).value.traced.log);
            OrderedDict.Get(attrs, "llm.response.has_body") == (if original.Returned? then (if original.value.body.Some? then Some(PBool(true)) else None) else None)
  {
    InvokeKeysDistinct(ModelId(kwargs), kwargs, ResponseOf(original));
    KeyAt(Provider, "aws.bedrock.invoke_model", OperationType(ModelId(kwargs)).value, ModelId(kwargs), [], current, InvokeRequest(ModelId(kwargs), kwargs), original, InvokeResponse(ResponseOf(original)), None, 13);
  }

  /**
   * The span records region, accept and content type each exactly when the
   * caller passed it, with the value passed.
   */
  lemma InvokeBedrockAttributes(current: Parent, kwargs: Attrs, original: Outcome<Response>)
    requires OperationType(ModelId(kwargs)).Ok?
    ensures var attrs := Assignments(InvokeModel(current, kwargs, original).value.traced.log);
            && OrderedDict.Get(attrs, "llm.request.region") == OrderedDict.Get(kwargs, "region")
            && OrderedDict.Get(attrs, "llm.request.accept") == OrderedDict.Get(kwargs, "accept")
            && OrderedDict.Get(attrs, "llm.request.content_type") == OrderedDict.Get(kwargs, "contentType")
  {
    InvokeBedrockRequestRegion(current, kwargs, original);
    InvokeBedrockRequestAccept(current, kwargs, original);
    InvokeBedrockRequestContentType(current, kwargs, original);
  }

  /** The `llm.request.region` part of `InvokeBedrockAttributes`. */
  lemma InvokeBedrockRequestRegion(current: Parent, kwargs: Attrs, original: Outcome<Response>)
    requires OperationType(ModelId(kwargs)).Ok?
    ensures var attrs := Assignments(InvokeModel(current, kwargs, original).value.traced.log);
            OrderedDict.Get(attrs, "llm.request.region") == OrderedDict.Get(kwargs, "region")
  {
    InvokeKeysDistinct(ModelId(kwargs), kwargs, ResponseOf(original));
    KeyAt(Provider, "aws.bedrock.invoke_model", OperationType(ModelId(kwargs)).value, ModelId(kwargs), [], current, InvokeRequest(ModelId(kwargs), kwargs), original, InvokeResponse(ResponseOf(original)), None, 5);
  }

  /** The `llm.request.accept` part of `InvokeBedrockAttributes`. */
  lemma InvokeBedrockRequestAccept(current: Parent, kwargs: Attrs, original: Outcome<Response>)
    requires OperationType(ModelId(kwargs)).Ok?
    ensures var attrs := Assignments(InvokeModel(current, kwargs, original).value.traced.log);
            OrderedDict.Get(attrs, "llm.request.accept") == OrderedDict.Get(kwargs, "accept")
  {
    InvokeKeysDistinct(ModelId(kwargs), kwargs, ResponseOf(original));
    KeyAt(Provider, "aws.bedrock.invoke_model", OperationType(ModelId(kwargs)).value, ModelId(kwargs), [], current, InvokeRequest(ModelId(kwargs), kwargs), original, InvokeResponse(ResponseOf(original)), None, 6);
  }

  /** The `llm.request.content_type` part of `InvokeBedrockAttributes`. */
  lemma InvokeBedrockRequestContentType(current: Parent, kwargs: Attrs, original: Outcome<Response>)
    requires OperationType(ModelId(kwargs)).Ok?
    ensures var attrs := Assignments(InvokeModel(current, kwargs, original).value.traced.log);
            OrderedDict.Get(attrs, "llm.request.content_type") == OrderedDict.Get(kwargs, "contentType")
  {
    InvokeKeysDistinct(ModelId(kwargs), kwargs, ResponseOf(original));
    KeyAt(Provider, "aws.bedrock.invoke_model", OperationType(ModelId(kwargs)).value, ModelId(kwargs), [], current, InvokeRequest(ModelId(kwargs), kwargs), original, InvokeResponse(ResponseOf(original)), None, 7);
  }

  /**
   * After a return the span holds the request id and the HTTP status code
   * exactly when the response's metadata holds them; after an exception
   * neither.
   */
  lemma InvokeMetadataAttributes(current: Parent, kwargs: Attrs, original: Outcome<Response>)
    requires OperationType(ModelId(kwargs)).Ok?
    ensures var attrs := Assignments(InvokeModel(current, kwargs, original).value.traced.log);
            && OrderedDict.Get(attrs, "llm.response.request_id") == (if original.Returned? then MetadataWrites(original.value.metadata)[0].1 else None)
            && OrderedDict.Get(attrs, "llm.response.http_status") == (if original.Returned? then MetadataWrites(original.value.metadata)[1].1 else None)
  {
    InvokeMetadataResponseRequestId(current, kwargs, original);
    InvokeMetadataResponseHttpStatus(current, kwargs, original);
  }

  /** The `llm.response.request_id` part of `InvokeMetadataAttributes`. */
  lemma InvokeMetadataResponseRequestId(current: Parent, kwargs: Attrs, original: Outcome<Response>)
    requires OperationType(ModelId(kwargs)).Ok?
    ensures var attrs := Assignments(InvokeModel(current, kwargs, original).value.traced.log);
            OrderedDict.Get(attrs, "llm.response.request_id") == (if original.Returned? then MetadataWrites(original.value.metadata)[0].1 else None)
  {
    InvokeKeysDistinct(ModelId(kwargs), kwargs, ResponseOf(original));
    KeyAt(Provider, "aws.bedrock.invoke_model", OperationType(ModelId(kwargs)).value, ModelId(kwargs), [], current, InvokeRequest(ModelId(kwargs), kwargs), original, InvokeResponse(ResponseOf(original)), None, 11);
  }

  /** The `llm.response.http_status` part of `InvokeMetadataAttributes`. */
  lemma InvokeMetadataResponseHttpStatus(current: Parent, kwargs: Attrs, original: Outcome<Response>)
    requires OperationType(ModelId(kwargs)).Ok?
    ensures var attrs := Assignments(InvokeModel(current, kwargs, original).value.traced.log);
            OrderedDict.Get(attrs, "llm.response.http_status") == (if original.Returned? then MetadataWrites(original.value.metadata)[1].1 else None)
  {
    InvokeKeysDistinct(ModelId(kwargs), kwargs, ResponseOf(original));
    KeyAt(Provider, "aws.bedrock.invoke_model", OperationType(ModelId(kwargs)).value, ModelId(kwargs), [], current, InvokeRequest(ModelId(kwargs), kwargs), original, InvokeResponse(ResponseOf(original)), None, 12);
  }
  lemma InvokeWritesNoTokens(model: PyValue, kwargs: Attrs, r: Response)
    ensures NoTokenKeys(InvokeRequest(model, kwargs)) && NoTokenKeys(InvokeResponse(r))
  {
    assert WriteKeys(InvokeRequest(model, kwargs)) == InvokeKeys[..8];
    assert WriteKeys(InvokeResponse(r)) == InvokeKeys[8..14];
  }

  /**
   * The wrapper reads no usage: a traced `invoke_model` call sets no token
   * count and records no usage.
   */
  lemma InvokeNoTokens(current: Parent, kwargs: Attrs, original: Outcome<Response>)
    requires OperationType(ModelId(kwargs)).Ok?
    ensures var c := InvokeModel(current, kwargs, original).value;
            && c.usage == []
            && forall t :: t in TokenKeys ==> OrderedDict.Get(Assignments(c.traced.log), t) == None
  {
    var model, r := ModelId(kwargs), ResponseOf(original);
    InvokeWritesNoTokens(model, kwargs, r);
    AdapterCallNoUsage(Provider, "aws.bedrock.invoke_model", OperationType(model).value, model, [], current,
                       InvokeRequest(model, kwargs), original, InvokeResponse(r));
  }

  // ---------------------------------------------------------------------------
  // invoke_model_with_response_stream
  // ---------------------------------------------------------------------------

  /** `_wrap_invoke_model_stream_sync`'s wrapper: "stream" is True in the bag, and no usage is read. */
  function InvokeModelStream(current: Parent, kwargs: Attrs, original: Outcome<Response>): Result<Call<Response>, PyException> {
    var model := ModelId(kwargs);
    match OperationType(model)
    case Err(e) => Err(e)
    case Ok(op) =>
      Ok(AdapterCall(Provider, "aws.bedrock.invoke_model_stream", op, model, [("stream", PBool(true))], current,
                     StreamRequest(model, kwargs), original, StreamResponse(ResponseOf(original)), None))
  }

  const StreamKeys: seq<string> :=
    ["llm.request.model", "llm.request.temperature", "llm.request.max_tokens", "llm.request.model_id",
     "llm.request.stream", "llm.request.region", "llm.request.accept", "llm.request.content_type",
     "llm.response.model", "llm.response.id", "llm.response.request_id", "llm.response.http_status"] + TokenKeys

  lemma StreamKeysAreDistinct()
    ensures PyTypes.Distinct(StreamKeys)
  {
  }

  lemma StreamKeysDistinct(model: PyValue, kwargs: Attrs, r: Response)
    ensures PyTypes.Distinct(WriteKeys(ReducedStreamRequest(model, kwargs)) + WriteKeys(StreamResponse(r)) + TokenKeys)
  {
    StreamKeysAreDistinct();
    assert WriteKeys(ReducedStreamRequest(model, kwargs)) + WriteKeys(StreamResponse(r)) + TokenKeys == StreamKeys;
  }

  /** The common `stream` write is overridden by the wrapper's own, so dropping it changes no attribute. */
  lemma StreamReduced(model: PyValue, kwargs: Attrs, r: Response, k: string)
    ensures LastValue(StreamRequest(model, kwargs), k) == LastValue(ReducedStreamRequest(model, kwargs), k)
    ensures LastValue(StreamResponse(r), k) == LastValue(StreamResponse(r) + [], k)
  {
    var common := RequestWrites(model, kwargs);
    var b := [("llm.request.model_id", Some(model)), ("llm.request.stream", Some(PBool(true)))] + BedrockWrites(kwargs);
    assert common == common[..3] + [common[3]];
    assert StreamRequest(model, kwargs) == common[..3] + [common[3]] + b;
    assert ReducedStreamRequest(model, kwargs) == common[..3] + b;
    assert b[1].0 == common[3].0 && b[1].1.Some?;
    LastValueOverridden(common[..3], common[3], b, k);
    assert StreamResponse(r) + [] == StreamResponse(r);
  }

  /**
   * A traced invoke_model_with_response_stream call: the response or
   * exception passes through; the client span
   * "aws.bedrock.invoke_model_stream" names the provider, the operation the
   * model id gives and the model id; it ends once, OK exactly when the call
   * returned; no usage is recorded.
   */
  lemma StreamSpanProperties(current: Parent, kwargs: Attrs, original: Outcome<Response>)
    requires OperationType(ModelId(kwargs)).Ok?
    ensures var c := InvokeModelStream(current, kwargs, original).value;
            && c.traced.outcome == original && c.traced.span.name == "aws.bedrock.invoke_model_stream" && c.traced.span.kind == SpanKind.Client
            && OrderedDict.Get(c.traced.span.attributes, "llm.provider") == Some(PStr(Provider))
            && OrderedDict.Get(c.traced.span.attributes, "llm.operation.type") == Some(PStr(OperationType(ModelId(kwargs)).value))
            && OrderedDict.Get(c.traced.span.attributes, "llm.model") == Some(ModelId(kwargs))
            && CountEnds(c.traced.log) == 1 && (LastStatus(c.traced.log) == Some((StatusOk, None)) <==> original.Returned?)
            && c.usage == []
  {
    AdapterCallShape(Provider, "aws.bedrock.invoke_model_stream", OperationType(ModelId(kwargs)).value, ModelId(kwargs), [("stream", PBool(true))], current, StreamRequest(ModelId(kwargs), kwargs), original, StreamResponse(ResponseOf(original)), None);
  }

  /**
   * The span records the model id and `llm.request.stream` as True, whatever
   * `stream` argument the caller passed.
   */
  lemma StreamRequestAttributes(current: Parent, kwargs: Attrs, original: Outcome<Response>)
    requires OperationType(ModelId(kwargs)).Ok?
    ensures var attrs := Assignments(InvokeModelStream(current, kwargs, original).value.traced.log);
            && OrderedDict.Get(attrs, "llm.request.model_id") == Some(ModelId(kwargs))
            && OrderedDict.Get(attrs, "llm.request.stream") == Some(PBool(true))
  {
    StreamRequestModelId(current, kwargs, original);
    StreamRequestStream(current, kwargs, original);
  }

  /** The `llm.request.model_id` part of `StreamRequestAttributes`. */
  lemma StreamRequestModelId(current: Parent, kwargs: Attrs, original: Outcome<Response>)
    requires OperationType(ModelId(kwargs)).Ok?
    ensures var attrs := Assignments(InvokeModelStream(current, kwargs, original).value.traced.log);
            OrderedDict.Get(attrs, "llm.request.model_id") == Some(ModelId(kwargs))
  {
    StreamKeysDistinct(ModelId(kwargs), kwargs, ResponseOf(original));
    StreamReduced(ModelId(kwargs), kwargs, ResponseOf(original), "llm.request.model_id");
    KeyAtEquivalent(Provider, "aws.bedrock.invoke_model_stream", OperationType(ModelId(kwargs)).value, ModelId(kwargs), [("stream", PBool(true))], current, StreamRequest(ModelId(kwargs), kwargs), original, StreamResponse(ResponseOf(original)), ReducedStreamRequest(ModelId(kwargs), kwargs), StreamResponse(ResponseOf(original)), [], None, 3);
  }

  /** The `llm.request.stream` part of `StreamRequestAttributes`. */
  lemma StreamRequestStream(current: Parent, kwargs: Attrs, original: Outcome<Response>)
    requires OperationType(ModelId(kwargs)).Ok?
    ensures var attrs := Assignments(InvokeModelStream(current, kwargs, original).value.traced.log);
            OrderedDict.Get(attrs, "llm.request.stream") == Some(PBool(true))
  {
    StreamKeysDistinct(ModelId(kwargs), kwargs, ResponseOf(original));
    StreamReduced(ModelId(kwargs), kwargs, ResponseOf(original), "llm.request.stream");
    KeyAtEquivalent(Provider, "aws.bedrock.invoke_model_stream", OperationType(ModelId(kwargs)).value, ModelId(kwargs), [("stream", PBool(true))], current, StreamRequest(ModelId(kwargs), kwargs), original, StreamResponse(ResponseOf(original)), ReducedStreamRequest(ModelId(kwargs), kwargs), StreamResponse(ResponseOf(original)), [], None, 4);
  }

  /**
   * After a return the span holds the request id and the HTTP status code
   * exactly when the response's metadata holds them; after an exception
   * neither.
   */
  lemma StreamResponseAttributes(current: Parent, kwargs: Attrs, original: Outcome<Response>)
    requires OperationType(ModelId(kwargs)).Ok?
    ensures var attrs := Assignments(InvokeModelStream(current, kwargs, original).value.traced.log);
            && OrderedDict.Get(attrs, "llm.response.request_id") == (if original.Returned? then MetadataWrites(original.value.metadata)[0].1 else None)
            && OrderedDict.Get(attrs, "llm.response.http_status") == (if original.Returned? then MetadataWrites(original.value.metadata)[1].1 else None)
  {
    StreamResponseRequestId(current, kwargs, original);
    StreamResponseHttpStatus(current, kwargs, original);
  }

  /** The `llm.response.request_id` part of `StreamResponseAttributes`. */
  lemma StreamResponseRequestId(current: Parent, kwargs: Attrs, original: Outcome<Response>)
    requires OperationType(ModelId(kwargs)).Ok?
    ensures var attrs := Assignments(InvokeModelStream(current, kwargs, original).value.traced.log);
            OrderedDict.Get(attrs, "llm.response.request_id") == (if original.Returned? then MetadataWrites(original.value.metadata)[0].1 else None)
  {
    StreamKeysDistinct(ModelId(kwargs), kwargs, ResponseOf(original));
    StreamReduced(ModelId(kwargs), kwargs, ResponseOf(original), "llm.response.request_id");
    KeyAtEquivalent(Provider, "aws.bedrock.invoke_model_stream", OperationType(ModelId(kwargs)).value, ModelId(kwargs), [("stream", PBool(true))], current, StreamRequest(ModelId(kwargs), kwargs), original, StreamResponse(ResponseOf(original)), ReducedStreamRequest(ModelId(kwargs), kwargs), StreamResponse(ResponseOf(original)), [], None, 10);
  }

  /** The `llm.response.http_status` part of `StreamResponseAttributes`. */
  lemma StreamResponseHttpStatus(current: Parent, kwargs: Attrs, original: Outcome<Response>)
    requires OperationType(ModelId(kwargs)).Ok?
    ensures var attrs := Assignments(InvokeModelStream(current, kwargs, original).value.traced.log);
            OrderedDict.Get(attrs, "llm.response.http_status") == (if original.Returned? then MetadataWrites(original.value.metadata)[1].1 else None)
  {
    StreamKeysDistinct(ModelId(kwargs), kwargs, ResponseOf(original));
    StreamReduced(ModelId(kwargs), kwargs, ResponseOf(original), "llm.response.http_status");
    KeyAtEquivalent(Provider, "aws.bedrock.invoke_model_stream", OperationType(ModelId(kwargs)).value, ModelId(kwargs), [("stream", PBool(true))], current, StreamRequest(ModelId(kwargs), kwargs), original, StreamResponse(ResponseOf(original)), ReducedStreamRequest(ModelId(kwargs), kwargs), StreamResponse(ResponseOf(original)), [], None, 11);
  }

  /**
   * The span records region, accept and content type each exactly when the
   * caller passed it, with the value passed.
   */
  lemma StreamBedrockAttributes(current: Parent, kwargs: Attrs, original: Outcome<Response>)
    requires OperationType(ModelId(kwargs)).Ok?
    ensures var attrs := Assignments(InvokeModelStream(current, kwargs, original).value.traced.log);
            && OrderedDict.Get(attrs, "llm.request.region") == OrderedDict.Get(kwargs, "region")
            && OrderedDict.Get(attrs, "llm.request.accept") == OrderedDict.Get(kwargs, "accept")
            && OrderedDict.Get(attrs, "llm.request.content_type") == OrderedDict.Get(kwargs, "contentType")
  {
    StreamBedrockRequestRegion(current, kwargs, original);
    StreamBedrockRequestAccept(current, kwargs, original);
    StreamBedrockRequestContentType(current, kwargs, original);
  }

  /** The `llm.request.region` part of `StreamBedrockAttributes`. */
  lemma StreamBedrockRequestRegion(current: Parent, kwargs: Attrs, original: Outcome<Response>)
    requires OperationType(ModelId(kwargs)).Ok?
    ensures var attrs := Assignments(InvokeModelStream(current, kwargs, original).value.traced.log);
            OrderedDict.Get(attrs, "llm.request.region") == OrderedDict.Get(kwargs, "region")
  {
    StreamKeysDistinct(ModelId(kwargs), kwargs, ResponseOf(original));
    StreamReduced(ModelId(kwargs), kwargs, ResponseOf(original), "llm.request.region");
    KeyAtEquivalent(Provider, "aws.bedrock.invoke_model_stream", OperationType(ModelId(kwargs)).value, ModelId(kwargs), [("stream", PBool(true))], current, StreamRequest(ModelId(kwargs), kwargs), original, StreamResponse(ResponseOf(original)), ReducedStreamRequest(ModelId(kwargs), kwargs), StreamResponse(ResponseOf(original)), [], None, 5);
  }

  /** The `llm.request.accept` part of `StreamBedrockAttributes`. */
  lemma StreamBedrockRequestAccept(current: Parent, kwargs: Attrs, original: Outcome<Response>)
    requires OperationType(ModelId(kwargs)).Ok?
    ensures var attrs := Assignments(InvokeModelStream(current, kwargs, original).value.traced.log);
            OrderedDict.Get(attrs, "llm.request.accept") == OrderedDict.Get(kwargs, "accept")
  {
    StreamKeysDistinct(ModelId(kwargs), kwargs, ResponseOf(original));
    StreamReduced(ModelId(kwargs), kwargs, ResponseOf(original), "llm.request.accept");
    KeyAtEquivalent(Provider, "aws.bedrock.invoke_model_stream", OperationType(ModelId(kwargs)).value, ModelId(kwargs), [("stream", PBool(true))], current, StreamRequest(ModelId(kwargs), kwargs), original, StreamResponse(ResponseOf(original)), ReducedStreamRequest(ModelId(kwargs), kwargs), StreamResponse(ResponseOf(original)), [], None, 6);
  }

  /** The `llm.request.content_type` part of `StreamBedrockAttributes`. */
  lemma StreamBedrockRequestContentType(current: Parent, kwargs: Attrs, original: Outcome<Response>)
    requires OperationType(ModelId(kwargs)).Ok?
    ensures var attrs := Assignments(InvokeModelStream(current, kwargs, original).value.traced.log);
            OrderedDict.Get(attrs, "llm.request.content_type") == OrderedDict.Get(kwargs, "contentType")
  {
    StreamKeysDistinct(ModelId(kwargs), kwargs, ResponseOf(original));
    StreamReduced(ModelId(kwargs), kwargs, ResponseOf(original), "llm.request.content_type");
    KeyAtEquivalent(Provider, "aws.bedrock.invoke_model_stream", OperationType(ModelId(kwargs)).value, ModelId(kwargs), [("stream", PBool(true))], current, StreamRequest(ModelId(kwargs), kwargs), original, StreamResponse(ResponseOf(original)), ReducedStreamRequest(ModelId(kwargs), kwargs), StreamResponse(ResponseOf(original)), [], None, 7);
  }
  lemma StreamWritesNoTokens(model: PyValue, kwargs: Attrs, r: Response)
    ensures NoTokenKeys(StreamRequest(model, kwargs)) && NoTokenKeys(StreamResponse(r))
  {
    assert WriteKeys(StreamRequest(model, kwargs)) ==
           ["llm.request.model", "llm.request.temperature", "llm.request.max_tokens", "llm.request.stream"] + StreamKeys[3..8];
    assert WriteKeys(StreamResponse(r)) == StreamKeys[8..12];
  }

  /**
   * The stream wrapper reads no usage: it sets no token count and records
   * no usage.
   */
  lemma StreamNoTokens(current: Parent, kwargs: Attrs, original: Outcome<Response>)
    requires OperationType(ModelId(kwargs)).Ok?
    ensures var c := InvokeModelStream(current, kwargs, original).value;
            && c.usage == []
            && forall t :: t in TokenKeys ==> OrderedDict.Get(Assignments(c.traced.log), t) == None
  {
    var model, r := ModelId(kwargs), ResponseOf(original);
    StreamWritesNoTokens(model, kwargs, r);
    AdapterCallNoUsage(Provider, "aws.bedrock.invoke_model_stream", OperationType(model).value, model,
                       [("stream", PBool(true))], current, StreamRequest(model, kwargs), original, StreamResponse(r));
  }
}
