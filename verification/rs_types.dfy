/**
 * The Rust SDK's plain data types (`types.rs`): LLM operation types, the
 * option records spans and workflows are started from, token usage and
 * cost, workflows, providers and the instrumentation configuration.
 * Rust's unsigned widths are kept as subset types; a `HashMap` is a map.
 */
module RsTypes {
  import opened Wrappers

  type U32 = n: nat | n < 0x1_0000_0000
  type U64 = n: nat | n < 0x1_0000_0000_0000_0000

  /** `LLMOperationType`. */
  datatype OperationType =
    | Completion | Chat | Embedding | FineTune | ImageGeneration | AudioTranscription | AudioGeneration
    | Moderation | ToolUse

  /** The operation type's `Display` text. */
  function OperationText(op: OperationType): string {
    match op
    case Completion => "completion"
    case Chat => "chat"
    case Embedding => "embedding"
    case FineTune => "fine_tune"
    case ImageGeneration => "image_generation"
    case AudioTranscription => "audio_transcription"
    case AudioGeneration => "audio_generation"
    case Moderation => "moderation"
    case ToolUse => "tool_use"
  }

  /** Reading a `Display` text back: the operation type with that text, if any. */
  function ParseOperation(s: string): (r: Option<OperationType>)
    ensures r.Some? ==> OperationText(r.value) == s
  {
    if s == "completion" then Some(Completion)
    else if s == "chat" then Some(Chat)
    else if s == "embedding" then Some(Embedding)
    else if s == "fine_tune" then Some(FineTune)
    else if s == "image_generation" then Some(ImageGeneration)
    else if s == "audio_transcription" then Some(AudioTranscription)
    else if s == "audio_generation" then Some(AudioGeneration)
    else if s == "moderation" then Some(Moderation)
    else if s == "tool_use" then Some(ToolUse)
    else None
  }

  /** The `Display` texts are distinct: the text gives the operation type back. */
  lemma OperationTextRoundTrip(op: OperationType)
    ensures ParseOperation(OperationText(op)) == Some(op)
  {
  }

  lemma OperationTextInjective(a: OperationType, b: OperationType)
    ensures OperationText(a) == OperationText(b) <==> a == b
  {
    OperationTextRoundTrip(a);
    OperationTextRoundTrip(b);
  }

  /** `LLMSpanOptions`. Floating-point fields are reals. */
  datatype LLMSpanOptions = LLMSpanOptions(
    provider: string, model: string, operation: OperationType,
    promptTokens: Option<U32>, completionTokens: Option<U32>, totalTokens: Option<U32>,
    temperature: Option<real>, topP: Option<real>, maxTokens: Option<U32>, stream: Option<bool>,
    tools: Option<string>, toolCalls: Option<string>, durationMs: Option<U64>,
    costPrompt: Option<real>, costCompletion: Option<real>, costTotal: Option<real>,
    error: Option<string>, errorType: Option<string>, requestId: Option<string>, usageReason: Option<string>,
    attributes: map<string, string>)

  /** `LLMSpanOptions::default()`. */
  function DefaultLLMSpanOptions(): (o: LLMSpanOptions)
    ensures o.provider == "" && o.model == "" && o.operation == Chat && o.attributes == map[]
    ensures o.promptTokens.None? && o.completionTokens.None? && o.totalTokens.None? && o.temperature.None?
    ensures o.topP.None? && o.maxTokens.None? && o.stream.None? && o.tools.None? && o.toolCalls.None?
    ensures o.durationMs.None? && o.costPrompt.None? && o.costCompletion.None? && o.costTotal.None?
    ensures o.error.None? && o.errorType.None? && o.requestId.None? && o.usageReason.None?
  {
    LLMSpanOptions("", "", Chat, None, None, None, None, None, None, None, None, None, None, None, None, None,
                   None, None, None, None, map[])
  }

  /** `WorkflowOptions`. */
  datatype WorkflowOptions = WorkflowOptions(
    userId: Option<string>, sessionId: Option<string>, version: Option<string>, parentId: Option<string>,
    metadata: map<string, string>)

  /** `WorkflowOptions::default()`. */
  function DefaultWorkflowOptions(): (o: WorkflowOptions)
    ensures o.userId.None? && o.sessionId.None? && o.version.None? && o.parentId.None? && o.metadata == map[]
  {
    WorkflowOptions(None, None, None, None, map[])
  }

  /** `TokenUsage`. */
  datatype TokenUsage = TokenUsage(promptTokens: U32, completionTokens: U32, totalTokens: U32, model: string, provider: string)

  /** `Cost`. */
  datatype Cost = Cost(prompt: real, completion: real, total: real, currency: string, model: string, provider: string)

  /** OpenTelemetry's span kinds. */
  datatype SpanKind = Internal | Server | Client | Producer | Consumer

  /** `SpanOptions`. */
  datatype SpanOptions = SpanOptions(name: string, kind: SpanKind, attributes: map<string, string>)

  /** `SpanOptions::default()`. */
  function DefaultSpanOptions(): (o: SpanOptions)
    ensures o.name == "" && o.kind == Internal && o.attributes == map[]
  {
    SpanOptions("", Internal, map[])
  }

  /** `Workflow`. The start time is a timestamp in whatever unit the caller's clock gives. */
  datatype Workflow = Workflow(
    id: string, name: string, runId: string, userId: Option<string>, sessionId: Option<string>,
    version: Option<string>, parentId: Option<string>, metadata: map<string, string>, startTime: int)

  /**
   * `Workflow::new(name, run_id, options)`. The fresh UUID and the current
   * time are passed in as `id` and `now`.
   */
  function NewWorkflow(name: string, runId: string, options: WorkflowOptions, id: string, now: int): (w: Workflow)
    ensures w.id == id && w.startTime == now
  {
    Workflow(id, name, runId, options.userId, options.sessionId, options.version, options.parentId,
             options.metadata, now)
  }

  /** The options a workflow carries. */
  function OptionsOf(w: Workflow): WorkflowOptions {
    WorkflowOptions(w.userId, w.sessionId, w.version, w.parentId, w.metadata)
  }

  /**
   * A new workflow has the given name and run id and carries every option
   * field verbatim: its options read back as the ones it was made from.
   */
  lemma NewWorkflowCopies(name: string, runId: string, options: WorkflowOptions, id: string, now: int)
    ensures var w := NewWorkflow(name, runId, options, id, now);
            w.name == name && w.runId == runId && OptionsOf(w) == options
  {
  }

  /** `Provider`. */
  datatype Provider = Provider(name: string, version: string, enabled: bool)

  /** `InstrumentationConfig`. */
  datatype InstrumentationConfig = InstrumentationConfig(
    providers: seq<Provider>, autoInstrument: bool, captureBody: bool, captureErrors: bool)

  /** `InstrumentationConfig::default()`. */
  function DefaultInstrumentationConfig(): (c: InstrumentationConfig)
    ensures c.providers == [] && c.autoInstrument && c.captureBody && c.captureErrors
  {
    InstrumentationConfig([], true, true, true)
  }
}
