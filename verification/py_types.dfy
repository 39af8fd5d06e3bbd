/**
 * The Python SDK's value classes: the configuration, the four attribute
 * bags (LLM, vector database, framework, workflow), span options, token
 * usage and cost records.
 *
 * The attribute bags share one shape, captured by `Schema`: some required
 * keyword parameters, each stored under its attribute key; some optional
 * ones, stored only when not `None`; and every other keyword argument
 * (`**kwargs`) laid over the result with `dict.update`.
 */
module PyTypes {
  import opened Wrappers
  import opened PyValues
  import opened Spans
  import OrderedDict
  import Text

  // ----- Attribute bags -----

  /** A keyword parameter and the attribute key its value is stored under. */
  datatype Param = Param(name: string, key: string)

  datatype Schema = Schema(required: seq<Param>, optional: seq<Param>)

  function Names(ps: seq<Param>): (ns: seq<string>)
    ensures |ns| == |ps| && forall i :: 0 <= i < |ps| ==> ns[i] == ps[i].name
  {
    seq(|ps|, i requires 0 <= i < |ps| => ps[i].name)
  }

  function AttrKeys(ps: seq<Param>): (ks: seq<string>)
    ensures |ks| == |ps| && forall i :: 0 <= i < |ps| ==> ks[i] == ps[i].key
  {
    seq(|ps|, i requires 0 <= i < |ps| => ps[i].key)
  }

  predicate Distinct(xs: seq<string>) {
    forall i, j :: 0 <= i < j < |xs| ==> xs[i] != xs[j]
  }

  /** Parameter names are distinct and so are the attribute keys. */
  predicate WellFormed(schema: Schema) {
    Distinct(Names(schema.required + schema.optional))
    && Distinct(AttrKeys(schema.required + schema.optional))
  }

  /** Pairs the parameter names with their keys and takes the first `n` as the required ones. */
  function MakeSchema(names: seq<string>, keys: seq<string>, n: nat): (s: Schema)
    requires |names| == |keys| && n <= |names|
    ensures Names(s.required + s.optional) == names && AttrKeys(s.required + s.optional) == keys
    ensures |s.required| == n
  {
    var ps := seq(|names|, i requires 0 <= i < |names| => Param(names[i], keys[i]));
    assert ps[..n] + ps[n..] == ps;
    Schema(ps[..n], ps[n..])
  }

  const LlmNames: seq<string> :=
    ["provider", "model", "operation_type", "prompt_tokens", "completion_tokens", "total_tokens",
     "temperature", "top_p", "max_tokens", "stream", "tools", "tool_calls", "duration_ms", "cost_prompt",
     "cost_completion", "cost_total", "error", "error_type", "request_id", "usage_reason"]
  const LlmKeys: seq<string> :=
    ["llm.provider", "llm.model", "llm.operation.type", "llm.prompt.tokens", "llm.completion.tokens",
     "llm.total.tokens", "llm.temperature", "llm.top_p", "llm.max_tokens", "llm.stream", "llm.tools",
     "llm.tool_calls", "llm.duration_ms", "llm.cost.prompt", "llm.cost.completion", "llm.cost.total",
     "llm.error", "llm.error.type", "llm.request.id", "llm.usage.reason"]
  const LlmSchema: Schema := MakeSchema(LlmNames, LlmKeys, 3)

  const VectorDbNames: seq<string> :=
    ["system", "operation", "name", "collection", "namespace", "dimension", "count", "query_k",
     "query_filter", "query_metric"]
  const VectorDbKeys: seq<string> :=
    ["db.system", "db.operation", "db.name", "db.collection", "db.namespace", "vector.dimension",
     "vector.count", "vector.query.k", "vector.query.filter", "vector.query.metric"]
  const VectorDbSchema: Schema := MakeSchema(VectorDbNames, VectorDbKeys, 2)

  const FrameworkNames: seq<string> :=
    ["name", "operation", "version", "chain_name", "chain_type", "agent_name", "agent_type", "tool_name",
     "tool_type"]
  const FrameworkKeys: seq<string> :=
    ["framework.name", "framework.operation", "framework.version", "framework.chain.name",
     "framework.chain.type", "framework.agent.name", "framework.agent.type", "framework.tool.name",
     "framework.tool.type"]
  const FrameworkSchema: Schema := MakeSchema(FrameworkNames, FrameworkKeys, 2)

  const WorkflowNames: seq<string> :=
    ["name", "run_id", "version", "parent_id", "user_id", "session_id", "metadata"]
  const WorkflowKeys: seq<string> :=
    ["workflow.name", "workflow.run_id", "workflow.version", "workflow.parent_id", "workflow.user_id",
     "workflow.session_id", "workflow.metadata"]
  const WorkflowSchema: Schema := MakeSchema(WorkflowNames, WorkflowKeys, 2)

  /** The four bags' parameter names are distinct, and so are their attribute keys. */
  lemma SchemasWellFormed()
    ensures WellFormed(LlmSchema) && WellFormed(VectorDbSchema)
    ensures WellFormed(FrameworkSchema) && WellFormed(WorkflowSchema)
  {
    LlmDistinct();
    VectorDbDistinct();
    FrameworkDistinct();
    WorkflowDistinct();
  }

  lemma LlmDistinct()
    ensures Distinct(LlmNames) && Distinct(LlmKeys)
  {
  }

  lemma VectorDbDistinct()
    ensures Distinct(VectorDbNames) && Distinct(VectorDbKeys)
  {
  }

  lemma FrameworkDistinct()
    ensures Distinct(FrameworkNames) && Distinct(FrameworkKeys)
  {
  }

  lemma WorkflowDistinct()
    ensures Distinct(WorkflowNames) && Distinct(WorkflowKeys)
  {
  }

  /** Every required parameter was passed. */
  predicate HasRequired(schema: Schema, args: Attrs) {
    forall i :: 0 <= i < |schema.required| ==> schema.required[i].name in OrderedDict.Keys(args)
  }

  /** The keyword arguments no named parameter takes, in call order: Python's `**kwargs`. */
  function Extras(schema: Schema, args: Attrs): Attrs {
    if |args| == 0 then []
    else if args[|args| - 1].0 in Names(schema.required + schema.optional) then Extras(schema, args[..|args| - 1])
    else Extras(schema, args[..|args| - 1]) + [args[|args| - 1]]
  }

  /** A key is left over for `**kwargs` exactly when it was passed and names no parameter. */
  lemma {:induction false} ExtrasKeys(schema: Schema, args: Attrs, k: string)
    ensures k in OrderedDict.Keys(Extras(schema, args)) <==>
              k in OrderedDict.Keys(args) && k !in Names(schema.required + schema.optional)
    decreases |args|
  {
    if args != [] {
      var init := args[..|args| - 1];
      ExtrasKeys(schema, init, k);
      assert OrderedDict.Keys(args) == OrderedDict.Keys(init) + [args[|args| - 1].0];
      var e := Extras(schema, init);
      assert OrderedDict.Keys(e + [args[|args| - 1]]) == OrderedDict.Keys(e) + [args[|args| - 1].0];
    }
  }

  /** Leftovers distribute over concatenated argument lists. */
  lemma {:induction false} ExtrasConcat(schema: Schema, a: Attrs, b: Attrs)
    ensures Extras(schema, a + b) == Extras(schema, a) + Extras(schema, b)
    decreases |b|
  {
    if b == [] {
      assert a + b == a;
    } else {
      assert (a + b)[..|a + b| - 1] == a + b[..|b| - 1];
      ExtrasConcat(schema, a, b[..|b| - 1]);
    }
  }

  function RequiredPairs(req: seq<Param>, args: Attrs): Attrs
    requires forall i :: 0 <= i < |req| ==> req[i].name in OrderedDict.Keys(args)
  {
    seq(|req|, i requires 0 <= i < |req| => (req[i].key, OrderedDict.GetOr(args, req[i].name, PNone)))
  }

  /** Stores each optional parameter that was passed and is not `None`, in declaration order. */
  function AddOptionals(d: Attrs, opts: seq<Param>, args: Attrs): Attrs {
    if |opts| == 0 then d
    else
      var acc := AddOptionals(d, opts[..|opts| - 1], args);
      var p := opts[|opts| - 1];
      var v := OrderedDict.GetOr(args, p.name, PNone);
      if v != PNone then OrderedDict.Set(acc, p.key, v) else acc
  }

  /**
   * Calling an attribute-bag class with the keyword arguments `args`
   * (call order, unique names). A missing required argument is Python's
   * `TypeError`.
   */
  function Construct(schema: Schema, args: Attrs): (r: Result<Attrs, PyException>)
    ensures r.Err? <==> !HasRequired(schema, args)
  {
    if HasRequired(schema, args) then
      Ok(OrderedDict.Update(AddOptionals(RequiredPairs(schema.required, args), schema.optional, args),
                            Extras(schema, args)))
    else Err(PyException("TypeError", "missing a required argument"))
  }

  function OptionalValue(p: Param, args: Attrs): Option<PyValue> {
    var v := OrderedDict.GetOr(args, p.name, PNone);
    if v != PNone then Some(v) else None
  }

  /**
   * What an attribute bag holds, key by key: an extra keyword argument
   * under its own name wins; otherwise each required parameter's value is
   * under its attribute key, each optional parameter's value is under its
   * key exactly when it was passed and is not `None`, and nothing else is
   * present. The required keys come first, in declaration order.
   */
  lemma ConstructProperties(schema: Schema, args: Attrs)
    requires WellFormed(schema) && OrderedDict.UniqueKeys(args) && HasRequired(schema, args)
    ensures Construct(schema, args).Ok?
    ensures var r := Construct(schema, args).value;
            var extras := OrderedDict.Keys(Extras(schema, args));
            && OrderedDict.UniqueKeys(r)
            && (forall k :: k in extras ==> OrderedDict.Get(r, k) == OrderedDict.Get(args, k))
            && (forall j :: 0 <= j < |schema.required| && schema.required[j].key !in extras ==>
                  OrderedDict.Get(r, schema.required[j].key) == OrderedDict.Get(args, schema.required[j].name))
            && (forall i :: 0 <= i < |schema.optional| && schema.optional[i].key !in extras ==>
                  OrderedDict.Get(r, schema.optional[i].key) == OptionalValue(schema.optional[i], args))
            && (forall k :: k in OrderedDict.Keys(r) ==> k in extras || k in AttrKeys(schema.required + schema.optional))
            && |schema.required| <= |r|
            && OrderedDict.Keys(r)[..|schema.required|] == AttrKeys(schema.required)
  {
    var req, opt := schema.required, schema.optional;
    var all := req + opt;
    SchemaKeys(schema);
    var rp := RequiredPairs(req, args);
    RequiredPairsProperties(req, args);
    var ao := AddOptionals(rp, opt, args);
    AddOptionalsProperties(rp, opt, args);
    var e := Extras(schema, args);
    var r := OrderedDict.Update(ao, e);
    OrderedDict.UpdateProperties(ao, e);
    var extras := OrderedDict.Keys(e);
    forall k | k in extras
      ensures OrderedDict.Get(r, k) == OrderedDict.Get(args, k)
    {
      ExtrasGet(schema, args, k);
    }
    forall j | 0 <= j < |req| && req[j].key !in extras
      ensures OrderedDict.Get(r, req[j].key) == OrderedDict.Get(args, req[j].name)
    {
      OrderedDict.GetDefined(args, req[j].name);
    }
    forall i | 0 <= i < |opt| && opt[i].key !in extras
      ensures OrderedDict.Get(r, opt[i].key) == OptionalValue(opt[i], args)
    {
      var k := opt[i].key;
      assert OrderedDict.Get(r, k) == OrderedDict.Get(ao, k);
      assert k !in AttrKeys(req);
      OrderedDict.GetDefined(rp, k);
    }
    forall k | k in OrderedDict.Keys(r)
      ensures k in extras || k in AttrKeys(all)
    {
      OrderedDict.GetDefined(r, k);
      if k !in extras && k !in AttrKeys(all) {
        assert k !in AttrKeys(opt) && k !in AttrKeys(req);
        OrderedDict.GetDefined(rp, k);
      }
    }
  }

  /** The attribute keys of a well-formed schema: distinct among the required, among the optional, and across. */
  lemma SchemaKeys(schema: Schema)
    requires WellFormed(schema)
    ensures AttrKeys(schema.required + schema.optional) == AttrKeys(schema.required) + AttrKeys(schema.optional)
    ensures Distinct(AttrKeys(schema.required)) && Distinct(AttrKeys(schema.optional))
    ensures forall j, i :: 0 <= j < |schema.required| && 0 <= i < |schema.optional| ==>
              schema.required[j].key != schema.optional[i].key
  {
    var req, opt := schema.required, schema.optional;
    var all := req + opt;
    forall i, j | 0 <= i < j < |opt| ensures opt[i].key != opt[j].key {
      assert all[|req| + i] == opt[i] && all[|req| + j] == opt[j];
    }
    forall i, j | 0 <= i < j < |req| ensures req[i].key != req[j].key {
      assert all[i] == req[i] && all[j] == req[j];
    }
    forall j, i | 0 <= j < |req| && 0 <= i < |opt| ensures req[j].key != opt[i].key {
      assert all[j] == req[j] && all[|req| + i] == opt[i];
    }
  }

  lemma RequiredPairsProperties(req: seq<Param>, args: Attrs)
    requires forall i :: 0 <= i < |req| ==> req[i].name in OrderedDict.Keys(args)
    requires Distinct(AttrKeys(req))
    ensures OrderedDict.UniqueKeys(RequiredPairs(req, args))
    ensures OrderedDict.Keys(RequiredPairs(req, args)) == AttrKeys(req)
    ensures forall j :: 0 <= j < |req| ==>
              OrderedDict.Get(RequiredPairs(req, args), req[j].key) == Some(OrderedDict.GetOr(args, req[j].name, PNone))
  {
    var rp := RequiredPairs(req, args);
    forall j | 0 <= j < |req|
      ensures OrderedDict.Get(rp, req[j].key) == Some(OrderedDict.GetOr(args, req[j].name, PNone))
    {
      OrderedDict.GetAt(rp, j);
    }
  }

  lemma {:induction false} AddOptionalsProperties(d: Attrs, opts: seq<Param>, args: Attrs)
    requires OrderedDict.UniqueKeys(d) && Distinct(AttrKeys(opts))
    ensures OrderedDict.UniqueKeys(AddOptionals(d, opts, args))
    ensures |d| <= |AddOptionals(d, opts, args)|
    ensures OrderedDict.Keys(AddOptionals(d, opts, args))[..|d|] == OrderedDict.Keys(d)
    ensures forall i :: 0 <= i < |opts| ==>
              OrderedDict.Get(AddOptionals(d, opts, args), opts[i].key) ==
                (if OptionalValue(opts[i], args).Some? then OptionalValue(opts[i], args) else OrderedDict.Get(d, opts[i].key))
    ensures forall k :: k !in AttrKeys(opts) ==> OrderedDict.Get(AddOptionals(d, opts, args), k) == OrderedDict.Get(d, k)
    decreases |opts|
  {
    if opts != [] {
      var init := opts[..|opts| - 1];
      var p := opts[|opts| - 1];
      assert AttrKeys(opts) == AttrKeys(init) + [p.key];
      AddOptionalsProperties(d, init, args);
      var acc := AddOptionals(d, init, args);
      var v := OrderedDict.GetOr(args, p.name, PNone);
      if v != PNone {
        OrderedDict.SetProperties(acc, p.key, v);
      }
      forall i | 0 <= i < |opts| - 1
        ensures opts[i].key != p.key && init[i] == opts[i]
      {
        assert AttrKeys(opts)[i] == opts[i].key;
      }
    }
  }

  /** What `**kwargs` holds under a key is what was passed under it. */
  lemma {:induction false} ExtrasGet(schema: Schema, args: Attrs, k: string)
    requires k in OrderedDict.Keys(Extras(schema, args))
    ensures OrderedDict.Get(Extras(schema, args), k) == OrderedDict.Get(args, k)
    decreases |args|
  {
    var init := args[..|args| - 1];
    var last := args[|args| - 1];
    var e := Extras(schema, init);
    if last.0 in Names(schema.required + schema.optional) {
      ExtrasKeys(schema, args, k);
      ExtrasGet(schema, init, k);
    } else if k != last.0 {
      assert OrderedDict.Keys(e + [last]) == OrderedDict.Keys(e) + [last.0];
      ExtrasGet(schema, init, k);
    }
  }

  // ----- Span options -----

  datatype SpanOptions = SpanOptions(name: string, kind: SpanKind, attributes: Attrs, parent: Option<Parent>)

  /** `UntraceSpanOptions(name, kind, attributes, parent)`: a missing kind is INTERNAL, missing attributes are empty. */
  function MakeSpanOptions(name: string, kind: Option<SpanKind>, attributes: Option<Attrs>, parent: Option<Parent>): (o: SpanOptions)
    ensures o.name == name && o.parent == parent
    ensures o.kind == (if kind.Some? then kind.value else Internal)
    ensures o.attributes == (if attributes.Some? then attributes.value else [])
  {
    SpanOptions(name, kind.GetOr(Internal), attributes.GetOr([]), parent)
  }

  // ----- Usage and cost -----

  datatype TokenUsage = TokenUsage(model: PyValue, provider: string, promptTokens: Option<int>,
                                   completionTokens: Option<int>, totalTokens: Option<int>)

  datatype Cost = Cost(model: PyValue, provider: string, total: real, prompt: Option<real>,
                       completion: Option<real>, currency: string)

  /** `Cost(model, provider, total, prompt=None, completion=None, currency="USD")`. */
  function MakeCost(model: PyValue, provider: string, total: real, prompt: Option<real> := None,
                    completion: Option<real> := None, currency: string := "USD"): (c: Cost)
    ensures c.model == model && c.provider == provider
    ensures c.total == total && c.prompt == prompt && c.completion == completion && c.currency == currency
  {
    Cost(model, provider, total, prompt, completion, currency)
  }

  // ----- Configuration -----

  datatype Config = Config(
    apiKey: string, baseUrl: string, version: string, resourceAttributes: Attrs, debug: bool,
    disableAutoInstrumentation: bool, headers: OrderedDict.Dict<string>, samplingRate: real,
    maxBatchSize: int, exportIntervalMs: int, captureBody: bool, captureErrors: bool,
    spanProcessors: seq<nat>, providers: seq<string>)

  const DefaultBaseUrl := "https://untrace.dev"

  /**
   * `UntraceConfig(...)`: trailing slashes are stripped from the base URL,
   * and a missing or empty provider list means every provider.
   */
  function MakeConfig(
    apiKey: string, baseUrl: string := DefaultBaseUrl, version: string := "0.1.0",
    resourceAttributes: Option<Attrs> := None, debug: bool := false,
    disableAutoInstrumentation: bool := false, headers: Option<OrderedDict.Dict<string>> := None,
    samplingRate: real := 1.0, maxBatchSize: int := 512, exportIntervalMs: int := 5000,
    captureBody: bool := true, captureErrors: bool := true, spanProcessors: Option<seq<nat>> := None,
    providers: Option<seq<string>> := None): (c: Config)
    ensures c.baseUrl == [] || c.baseUrl[|c.baseUrl| - 1] != '/'
    ensures |c.baseUrl| <= |baseUrl| && baseUrl[..|c.baseUrl|] == c.baseUrl
    ensures forall i :: |c.baseUrl| <= i < |baseUrl| ==> baseUrl[i] == '/'
    ensures c.providers == if providers.None? || providers.value == [] then ["all"] else providers.value
    ensures c.resourceAttributes == if resourceAttributes.Some? then resourceAttributes.value else []
    ensures c.headers == if headers.Some? then headers.value else []
    ensures c.apiKey == apiKey && c.samplingRate == samplingRate && c.maxBatchSize == maxBatchSize
    ensures c.exportIntervalMs == exportIntervalMs
  {
    var stripped := Text.RStrip(baseUrl, '/');
    Config(apiKey, stripped, version, resourceAttributes.GetOr([]), debug, disableAutoInstrumentation,
           headers.GetOr([]), samplingRate, maxBatchSize, exportIntervalMs, captureBody, captureErrors,
           spanProcessors.GetOr([]),
           if providers.None? || providers.value == [] then ["all"] else providers.value)
  }

  /** Normalisation is idempotent: building a configuration from a built one's fields gives it back. */
  lemma ConfigIdempotent(apiKey: string, baseUrl: string, resourceAttributes: Option<Attrs>,
                         headers: Option<OrderedDict.Dict<string>>, providers: Option<seq<string>>)
    ensures var c := MakeConfig(apiKey, baseUrl, resourceAttributes := resourceAttributes,
                                headers := headers, providers := providers);
            MakeConfig(c.apiKey, c.baseUrl, c.version, Some(c.resourceAttributes), c.debug,
                       c.disableAutoInstrumentation, Some(c.headers), c.samplingRate, c.maxBatchSize,
                       c.exportIntervalMs, c.captureBody, c.captureErrors, Some(c.spanProcessors),
                       Some(c.providers)) == c
  {
  }
}
