/**
 * The Rust SDK's tracer (`tracer.rs`): which attributes each way of
 * starting a span sets, in order. A started span is its name and the list
 * of its `set_attribute` calls. A loop over a `HashMap` visits its keys in
 * an unspecified order, given here as `order`.
 */
module RsTracer {
  import opened Wrappers
  import opened GoValues
  import GoTracer
  import RsTypes
  import RsAttributes

  datatype Span = Span(name: string, attributes: seq<KeyValue>)

  /** `start_span(name)`. */
  function StartSpan(name: string): (s: Span)
    ensures s.name == name && s.attributes == []
  {
    Span(name, [])
  }

  /** `start_span_with_options(options)`. */
  function StartSpanWithOptions(o: RsTypes.SpanOptions, order: seq<string>): Span
    requires Enumerates(order, o.attributes.Keys)
  {
    Span(o.name, RsAttributes.CreateAttributes(o.attributes, order))
  }

  /**
   * A span started from options has the options' name and exactly their
   * attributes, one per entry; the span kind in the options makes no
   * difference.
   */
  lemma StartSpanWithOptionsProperties(o: RsTypes.SpanOptions, kind: RsTypes.SpanKind, order: seq<string>)
    requires Enumerates(order, o.attributes.Keys)
    ensures var s := StartSpanWithOptions(o, order);
            && s.name == o.name && |s.attributes| == |o.attributes|
            && (forall k :: k in Keys(s.attributes) <==> k in o.attributes)
            && (forall i :: 0 <= i < |s.attributes| ==> s.attributes[i].value == AString(o.attributes[s.attributes[i].key]))
            && StartSpanWithOptions(o.(kind := kind), order) == s
  {
    RsAttributes.CreateAttributesProperties(o.attributes, order);
  }

  /** `n as i64` for a `u64`: values from 2^63 up wrap to negative ones. */
  function AsI64(n: RsTypes.U64): (r: int)
    ensures -0x8000_0000_0000_0000 <= r < 0x8000_0000_0000_0000
    ensures (r - n) % 0x1_0000_0000_0000_0000 == 0
  {
    if n < 0x8000_0000_0000_0000 then n else n - 0x1_0000_0000_0000_0000
  }

  /** The cast keeps every value below 2^63 and only those. */
  lemma AsI64Keeps(n: RsTypes.U64)
    ensures AsI64(n) == n <==> n < 0x8000_0000_0000_0000
  {
  }

  /** The keys of the optional LLM attributes, in the order `start_llm_span` sets them. */
  const OptionalKeys: seq<string> :=
    ["llm.prompt_tokens", "llm.completion_tokens", "llm.total_tokens", "llm.temperature", "llm.top_p",
     "llm.max_tokens", "llm.stream", "llm.tools", "llm.tool_calls", "llm.duration_ms", "llm.cost_prompt",
     "llm.cost_completion", "llm.cost_total", "llm.error", "llm.error_type", "llm.request_id", "llm.usage_reason"]

  function U32Attr(p: Option<RsTypes.U32>): Option<AttrValue> { if p.Some? then Some(AInt64(p.value)) else None }
  function FloatAttr(p: Option<real>): Option<AttrValue> { if p.Some? then Some(AFloat64(p.value)) else None }
  function StringAttr(p: Option<string>): Option<AttrValue> { if p.Some? then Some(AString(p.value)) else None }

  /** Each optional field's attribute value, `None` when the field is, in the order of `OptionalKeys`. */
  function OptionalValues(o: RsTypes.LLMSpanOptions): (vs: seq<Option<AttrValue>>)
    ensures |vs| == |OptionalKeys|
  {
    [U32Attr(o.promptTokens), U32Attr(o.completionTokens), U32Attr(o.totalTokens), FloatAttr(o.temperature),
     FloatAttr(o.topP), U32Attr(o.maxTokens), if o.stream.Some? then Some(ABool(o.stream.value)) else None,
     StringAttr(o.tools), StringAttr(o.toolCalls),
     if o.durationMs.Some? then Some(AInt64(AsI64(o.durationMs.value))) else None,
     FloatAttr(o.costPrompt), FloatAttr(o.costCompletion), FloatAttr(o.costTotal), StringAttr(o.error),
     StringAttr(o.errorType), StringAttr(o.requestId), StringAttr(o.usageReason)]
  }

  /** The three attributes every LLM span starts with. */
  function LeadingAttributes(o: RsTypes.LLMSpanOptions): seq<KeyValue> {
    [KeyValue("llm.provider", AString(o.provider)), KeyValue("llm.model", AString(o.model)),
     KeyValue("llm.operation", AString(RsTypes.OperationText(o.operation)))]
  }

  /** `start_llm_span(name, options)`, the custom attributes visited in `order`. */
  function StartLLMSpan(name: string, o: RsTypes.LLMSpanOptions, order: seq<string>): Span
    requires Enumerates(order, o.attributes.Keys)
  {
    Span(name, LeadingAttributes(o) + GoTracer.Present(OptionalKeys, OptionalValues(o), 0)
               + RsAttributes.CreateAttributes(o.attributes, order))
  }

  /**
   * An LLM span's attributes start with provider, model and the operation's
   * display text, then come the optional ones, and they end with the
   * custom attributes, one per entry.
   */
  lemma StartLLMSpanLayout(name: string, o: RsTypes.LLMSpanOptions, order: seq<string>)
    requires Enumerates(order, o.attributes.Keys)
    ensures var kvs := StartLLMSpan(name, o, order).attributes;
            var middle := GoTracer.Present(OptionalKeys, OptionalValues(o), 0);
            && Keys(kvs[..3]) == ["llm.provider", "llm.model", "llm.operation"]
            && kvs[2].value == AString(RsTypes.OperationText(o.operation))
            && kvs[3..3 + |middle|] == middle
            && kvs[3 + |middle|..] == RsAttributes.CreateAttributes(o.attributes, order)
  {
    var lead := LeadingAttributes(o);
    var middle := GoTracer.Present(OptionalKeys, OptionalValues(o), 0);
    var custom := RsAttributes.CreateAttributes(o.attributes, order);
    ThreeParts(lead, middle, custom);
    assert Keys(lead) == ["llm.provider", "llm.model", "llm.operation"];
  }

  /** The three parts of a concatenation, recovered by slicing. */
  lemma ThreeParts<T>(a: seq<T>, b: seq<T>, c: seq<T>)
    ensures (a + b + c)[..|a|] == a
    ensures (a + b + c)[|a|..|a| + |b|] == b
    ensures (a + b + c)[|a| + |b|..] == c
  {
  }

  /**
   * Each optional field adds exactly one attribute under its own key, with
   * its value, when set, and nothing when `None`.
   */
  lemma StartLLMSpanOptional(o: RsTypes.LLMSpanOptions)
    ensures var middle := GoTracer.Present(OptionalKeys, OptionalValues(o), 0);
            && (forall j :: 0 <= j < |OptionalKeys| ==> (OptionalKeys[j] in Keys(middle) <==> OptionalValues(o)[j].Some?))
            && (forall kv :: kv in middle <==>
                  exists j :: 0 <= j < |OptionalKeys| && OptionalKeys[j] == kv.key && OptionalValues(o)[j] == Some(kv.value))
  {
    GoTracer.PresentProperties(OptionalKeys, OptionalValues(o), 0);
  }

  /** The default options give the three leading attributes and nothing else. */
  lemma DefaultLLMSpan(name: string)
    ensures StartLLMSpan(name, RsTypes.DefaultLLMSpanOptions(), []).attributes ==
            [KeyValue("llm.provider", AString("")), KeyValue("llm.model", AString("")),
             KeyValue("llm.operation", AString("chat"))]
  {
    GoTracer.PresentNone(OptionalKeys, OptionalValues(RsTypes.DefaultLLMSpanOptions()), 0);
  }

  const MetadataPrefix: string := "workflow.metadata."

  /** The metadata entries as attributes, each key behind `workflow.metadata.`. */
  function MetadataAttributes(metadata: map<string, string>, order: seq<string>): (kvs: seq<KeyValue>)
    requires Enumerates(order, metadata.Keys)
    ensures |kvs| == |order|
  {
    seq(|order|, i requires 0 <= i < |order| => KeyValue(MetadataPrefix + order[i], AString(metadata[order[i]])))
  }

  const WorkflowOptionalKeys: seq<string> :=
    ["workflow.user_id", "workflow.session_id", "workflow.version", "workflow.parent_id"]

  function WorkflowOptionalValues(w: RsTypes.Workflow): (vs: seq<Option<AttrValue>>)
    ensures |vs| == |WorkflowOptionalKeys|
  {
    [StringAttr(w.userId), StringAttr(w.sessionId), StringAttr(w.version), StringAttr(w.parentId)]
  }

  /** `start_workflow_span(workflow)`, the metadata visited in `order`. */
  function StartWorkflowSpan(w: RsTypes.Workflow, order: seq<string>): Span
    requires Enumerates(order, w.metadata.Keys)
  {
    Span(w.name,
         [KeyValue("workflow.id", AString(w.id)), KeyValue("workflow.name", AString(w.name)),
          KeyValue("workflow.run_id", AString(w.runId))]
         + GoTracer.Present(WorkflowOptionalKeys, WorkflowOptionalValues(w), 0)
         + MetadataAttributes(w.metadata, order))
  }

  /**
   * A workflow span is named after the workflow; it always carries the id,
   * name and run id first; each optional field adds one attribute when set;
   * the metadata follows, one attribute per entry under its prefixed key
   * and with its value.
   */
  lemma StartWorkflowSpanLayout(w: RsTypes.Workflow, order: seq<string>)
    requires Enumerates(order, w.metadata.Keys)
    ensures var s := StartWorkflowSpan(w, order);
            var middle := GoTracer.Present(WorkflowOptionalKeys, WorkflowOptionalValues(w), 0);
            && s.name == w.name
            && s.attributes[..3] == [KeyValue("workflow.id", AString(w.id)), KeyValue("workflow.name", AString(w.name)),
                                     KeyValue("workflow.run_id", AString(w.runId))]
            && s.attributes[3..3 + |middle|] == middle
            && (forall j :: 0 <= j < 4 ==> (WorkflowOptionalKeys[j] in Keys(middle) <==> WorkflowOptionalValues(w)[j].Some?))
            && |s.attributes| == 3 + |middle| + |w.metadata|
            && (forall k :: k in w.metadata ==>
                  KeyValue(MetadataPrefix + k, AString(w.metadata[k])) in s.attributes[3 + |middle|..])
  {
    GoTracer.PresentProperties(WorkflowOptionalKeys, WorkflowOptionalValues(w), 0);
    GoTracer.DistinctCard(order);
    var meta := MetadataAttributes(w.metadata, order);
    forall k | k in w.metadata ensures KeyValue(MetadataPrefix + k, AString(w.metadata[k])) in meta {
      assert k in (set x | x in order);
      var i :| 0 <= i < |order| && order[i] == k;
      assert meta[i] == KeyValue(MetadataPrefix + k, AString(w.metadata[k]));
    }
  }
}
