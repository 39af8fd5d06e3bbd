/**
 * The Python SDK's attribute helpers: the four `create_*_attributes`
 * builders, `sanitize_attributes` and `merge_attributes`.
 */
module PyAttributes {
  import opened Wrappers
  import opened PyValues
  import opened PyTypes
  import OrderedDict

  /** A required parameter that the additional keyword arguments also name: Python's "multiple values" `TypeError`. */
  predicate Clashes(schema: Schema, additional: Attrs) {
    exists i :: 0 <= i < |schema.required| && schema.required[i].name in OrderedDict.Keys(additional)
  }

  /** The required values paired with their parameter names. */
  function NamedArgs(schema: Schema, required: seq<PyValue>): (named: Attrs)
    requires |required| == |schema.required|
    ensures |named| == |required|
    ensures forall i :: 0 <= i < |required| ==> named[i] == (schema.required[i].name, required[i])
  {
    seq(|required|, i requires 0 <= i < |required| => (schema.required[i].name, required[i]))
  }

  /** The keyword arguments a builder passes: the required values by name, then `**additional`. */
  function CallArgs(schema: Schema, required: seq<PyValue>, additional: Attrs): (args: Attrs)
    requires |required| == |schema.required|
    ensures |args| == |required| + |additional|
    ensures forall i :: 0 <= i < |required| ==> args[i] == (schema.required[i].name, required[i])
    ensures forall i :: 0 <= i < |additional| ==> args[|required| + i] == additional[i]
  {
    NamedArgs(schema, required) + additional
  }

  /**
   * A builder that passes its required values by keyword, followed by
   * `**additional`.
   */
  function CreateBag(schema: Schema, required: seq<PyValue>, additional: Attrs): (r: Result<Attrs, PyException>)
    requires |required| == |schema.required|
    ensures r.Err? <==> Clashes(schema, additional)
  {
    if Clashes(schema, additional) then
      Err(PyException("TypeError", "got multiple values for keyword argument"))
    else
      var args := CallArgs(schema, required, additional);
      assert forall i :: 0 <= i < |schema.required| ==> OrderedDict.Keys(args)[i] == schema.required[i].name;
      var r := Construct(schema, args);
      assert r.Ok?;
      r
  }

  /** `create_llm_attributes(provider, model, operation_type, **additional_attributes)`. */
  function CreateLlmAttributes(provider: PyValue, model: PyValue, operationType: PyValue, additional: Attrs): Result<Attrs, PyException> {
    CreateBag(LlmSchema, [provider, model, operationType], additional)
  }

  /** `create_vector_db_attributes(system, operation, additional_attributes=None)`. */
  function CreateVectorDbAttributes(system: PyValue, operation: PyValue, additional: Option<Attrs>): Result<Attrs, PyException> {
    CreateBag(VectorDbSchema, [system, operation], additional.GetOr([]))
  }

  /** `create_framework_attributes(name, operation, additional_attributes=None)`. */
  function CreateFrameworkAttributes(name: PyValue, operation: PyValue, additional: Option<Attrs>): Result<Attrs, PyException> {
    CreateBag(FrameworkSchema, [name, operation], additional.GetOr([]))
  }

  /** `create_workflow_attributes(name, run_id, additional_attributes=None)`. */
  function CreateWorkflowAttributes(name: PyValue, runId: PyValue, additional: Option<Attrs>): Result<Attrs, PyException> {
    CreateBag(WorkflowSchema, [name, runId], additional.GetOr([]))
  }

  lemma CallArgsUnique(schema: Schema, required: seq<PyValue>, additional: Attrs)
    requires WellFormed(schema) && |required| == |schema.required|
    requires OrderedDict.UniqueKeys(additional) && !Clashes(schema, additional)
    ensures OrderedDict.UniqueKeys(CallArgs(schema, required, additional))
    ensures HasRequired(schema, CallArgs(schema, required, additional))
  {
    var req := schema.required;
    var args := CallArgs(schema, required, additional);
    var all := req + schema.optional;
    forall i, j | 0 <= i < j < |args| ensures args[i].0 != args[j].0 {
      if j < |req| {
        assert Names(all)[i] == args[i].0 && Names(all)[j] == args[j].0;
      } else if i < |req| {
        assert args[j].0 in OrderedDict.Keys(additional);
      }
    }
    assert forall i :: 0 <= i < |req| ==> OrderedDict.Keys(args)[i] == req[i].name;
  }

  /** The required arguments a builder passes by name are never left over for `**kwargs`. */
  lemma NamedNotExtra(schema: Schema, required: seq<PyValue>)
    requires |required| == |schema.required|
    ensures Extras(schema, NamedArgs(schema, required)) == []
  {
    var named := NamedArgs(schema, required);
    var e := Extras(schema, named);
    assert forall j :: 0 <= j < |named| ==> named[j].0 == Names(schema.required + schema.optional)[j];
    if e != [] {
      ExtrasKeys(schema, named, e[0].0);
      assert false;
    }
  }

  /** Only the additional arguments can be left over for `**kwargs`. */
  lemma ExtrasFromAdditional(schema: Schema, required: seq<PyValue>, additional: Attrs)
    requires |required| == |schema.required|
    ensures Extras(schema, CallArgs(schema, required, additional)) == Extras(schema, additional)
  {
    ExtrasConcat(schema, NamedArgs(schema, required), additional);
    NamedNotExtra(schema, required);
  }

  /**
   * What a builder returns when no required parameter is named twice:
   * each required value sits under its attribute key unless an additional
   * argument of that very key replaced it, each optional parameter among
   * the additional arguments is stored under its attribute key when it is
   * not `None`, every other additional argument is kept under its own
   * name, and the required keys come first.
   */
  lemma CreateBagProperties(schema: Schema, required: seq<PyValue>, additional: Attrs)
    requires WellFormed(schema) && |required| == |schema.required|
    requires OrderedDict.UniqueKeys(additional) && !Clashes(schema, additional)
    ensures CreateBag(schema, required, additional).Ok?
    ensures var r := CreateBag(schema, required, additional).value;
            && OrderedDict.UniqueKeys(r)
            && (forall j :: 0 <= j < |schema.required| && schema.required[j].key !in OrderedDict.Keys(additional) ==>
                  OrderedDict.Get(r, schema.required[j].key) == Some(required[j]))
            && (forall i :: 0 <= i < |schema.optional| && schema.optional[i].key !in OrderedDict.Keys(additional) ==>
                  OrderedDict.Get(r, schema.optional[i].key) == OptionalValue(schema.optional[i], additional))
            && (forall k :: k in OrderedDict.Keys(additional) && k !in Names(schema.optional) ==>
                  OrderedDict.Get(r, k) == OrderedDict.Get(additional, k))
            && |schema.required| <= |r|
            && AttrKeys(schema.required) <= OrderedDict.Keys(r)
  {
    CreateBagShape(schema, required, additional);
    CreateBagRequired(schema, required, additional);
    CreateBagOptional(schema, required, additional);
    CreateBagExtra(schema, required, additional);
  }

  /** The bag is built, its keys are unique, and the required keys come first. */
  lemma CreateBagShape(schema: Schema, required: seq<PyValue>, additional: Attrs)
    requires WellFormed(schema) && |required| == |schema.required|
    requires OrderedDict.UniqueKeys(additional) && !Clashes(schema, additional)
    ensures CreateBag(schema, required, additional).Ok?
    ensures var r := CreateBag(schema, required, additional).value;
            && OrderedDict.UniqueKeys(r)
            && |schema.required| <= |r|
            && AttrKeys(schema.required) <= OrderedDict.Keys(r)
  {
    var args := CallArgs(schema, required, additional);
    CallArgsUnique(schema, required, additional);
    ConstructProperties(schema, args);
  }

  /** Each required value sits under its key unless an additional argument of that key replaced it. */
  lemma CreateBagRequired(schema: Schema, required: seq<PyValue>, additional: Attrs)
    requires WellFormed(schema) && |required| == |schema.required|
    requires OrderedDict.UniqueKeys(additional) && !Clashes(schema, additional)
    ensures CreateBag(schema, required, additional).Ok?
    ensures var r := CreateBag(schema, required, additional).value;
            forall j :: 0 <= j < |schema.required| && schema.required[j].key !in OrderedDict.Keys(additional) ==>
              OrderedDict.Get(r, schema.required[j].key) == Some(required[j])
  {
    var args := CallArgs(schema, required, additional);
    CallArgsUnique(schema, required, additional);
    ConstructProperties(schema, args);
    var r := Construct(schema, args).value;
    ExtrasFromAdditional(schema, required, additional);
    forall j | 0 <= j < |schema.required| && schema.required[j].key !in OrderedDict.Keys(additional)
      ensures OrderedDict.Get(r, schema.required[j].key) == Some(required[j])
    {
      ExtrasKeys(schema, additional, schema.required[j].key);
      OrderedDict.GetAt(args, j);
    }
  }

  /** Each optional parameter not shadowed by an additional argument of its key is stored when not `None`. */
  lemma CreateBagOptional(schema: Schema, required: seq<PyValue>, additional: Attrs)
    requires WellFormed(schema) && |required| == |schema.required|
    requires OrderedDict.UniqueKeys(additional) && !Clashes(schema, additional)
    ensures CreateBag(schema, required, additional).Ok?
    ensures var r := CreateBag(schema, required, additional).value;
            forall i :: 0 <= i < |schema.optional| && schema.optional[i].key !in OrderedDict.Keys(additional) ==>
              OrderedDict.Get(r, schema.optional[i].key) == OptionalValue(schema.optional[i], additional)
  {
    var args := CallArgs(schema, required, additional);
    CallArgsUnique(schema, required, additional);
    ConstructProperties(schema, args);
    var r := Construct(schema, args).value;
    ExtrasFromAdditional(schema, required, additional);
    forall i | 0 <= i < |schema.optional| && schema.optional[i].key !in OrderedDict.Keys(additional)
      ensures OrderedDict.Get(r, schema.optional[i].key) == OptionalValue(schema.optional[i], additional)
    {
      ExtrasKeys(schema, additional, schema.optional[i].key);
      OptionalFromAdditional(schema, required, additional, i);
    }
  }

  /** Every additional argument that names no optional parameter is kept under its own name. */
  lemma CreateBagExtra(schema: Schema, required: seq<PyValue>, additional: Attrs)
    requires WellFormed(schema) && |required| == |schema.required|
    requires OrderedDict.UniqueKeys(additional) && !Clashes(schema, additional)
    ensures CreateBag(schema, required, additional).Ok?
    ensures var r := CreateBag(schema, required, additional).value;
            forall k :: k in OrderedDict.Keys(additional) && k !in Names(schema.optional) ==>
              OrderedDict.Get(r, k) == OrderedDict.Get(additional, k)
  {
    var args := CallArgs(schema, required, additional);
    CallArgsUnique(schema, required, additional);
    ConstructProperties(schema, args);
    var r := Construct(schema, args).value;
    forall k | k in OrderedDict.Keys(additional) && k !in Names(schema.optional)
      ensures OrderedDict.Get(r, k) == OrderedDict.Get(additional, k)
    {
      AdditionalIsExtra(schema, required, additional, k);
    }
  }

  lemma OptionalFromAdditional(schema: Schema, required: seq<PyValue>, additional: Attrs, i: nat)
    requires WellFormed(schema) && |required| == |schema.required| && i < |schema.optional|
    ensures OptionalValue(schema.optional[i], CallArgs(schema, required, additional))
         == OptionalValue(schema.optional[i], additional)
  {
    var req := schema.required;
    var named := NamedArgs(schema, required);
    var p := schema.optional[i];
    assert OrderedDict.Keys(named) == Names(req);
    assert p.name !in Names(req) by {
      var all := req + schema.optional;
      assert Names(all)[|req| + i] == p.name;
      forall j | 0 <= j < |req| ensures req[j].name != p.name {
        assert Names(all)[j] == req[j].name;
      }
    }
    OrderedDict.GetDefined(named, p.name);
    OrderedDict.GetConcat(named, additional, p.name);
  }

  /** An additional argument that names no optional parameter is left over for `**kwargs`, unchanged. */
  lemma AdditionalIsExtra(schema: Schema, required: seq<PyValue>, additional: Attrs, k: string)
    requires WellFormed(schema) && |required| == |schema.required|
    requires !Clashes(schema, additional)
    requires k in OrderedDict.Keys(additional) && k !in Names(schema.optional)
    ensures k in OrderedDict.Keys(Extras(schema, CallArgs(schema, required, additional)))
    ensures OrderedDict.Get(CallArgs(schema, required, additional), k) == OrderedDict.Get(additional, k)
  {
    var req := schema.required;
    var named := NamedArgs(schema, required);
    forall j | 0 <= j < |req| ensures req[j].name != k {
      assert !Clashes(schema, additional);
    }
    assert k !in Names(req + schema.optional) by {
      assert Names(req + schema.optional) == Names(req) + Names(schema.optional);
    }
    ExtrasFromAdditional(schema, required, additional);
    ExtrasKeys(schema, additional, k);
    OrderedDict.GetDefined(additional, k);
    OrderedDict.GetConcat(named, additional, k);
  }

  // ----- sanitize_attributes -----

  predicate IsScalar(v: PyValue) {
    v.PStr? || v.PInt? || v.PFloat? || v.PBool?
  }

  /** `sanitize_attributes`: drops `None` values, keeps scalars, turns anything else into its `str()`. */
  function Sanitize(attrs: Attrs): Attrs {
    if |attrs| == 0 then []
    else
      var rest := Sanitize(attrs[..|attrs| - 1]);
      var (k, v) := attrs[|attrs| - 1];
      if v == PNone then rest
      else if IsScalar(v) then rest + [(k, v)]
      else rest + [(k, PStr(Str(v)))]
  }

  /** The keys whose value is not `None`, in order. */
  function PresentKeys(attrs: Attrs): seq<string> {
    if |attrs| == 0 then []
    else PresentKeys(attrs[..|attrs| - 1]) + (if attrs[|attrs| - 1].1 != PNone then [attrs[|attrs| - 1].0] else [])
  }

  /**
   * Sanitising keeps exactly the keys whose value is not `None`, in order;
   * every value it produces is a scalar; a scalar comes through unchanged
   * and anything else becomes its `str()`.
   */
  lemma SanitizeProperties(attrs: Attrs)
    requires OrderedDict.UniqueKeys(attrs)
    ensures OrderedDict.Keys(Sanitize(attrs)) == PresentKeys(attrs)
    ensures OrderedDict.UniqueKeys(Sanitize(attrs))
    ensures forall i :: 0 <= i < |Sanitize(attrs)| ==> IsScalar(Sanitize(attrs)[i].1)
    ensures forall k, v :: OrderedDict.Get(attrs, k) == Some(v) && v != PNone ==>
              OrderedDict.Get(Sanitize(attrs), k) == Some(if IsScalar(v) then v else PStr(Str(v)))
    ensures forall k :: OrderedDict.Get(attrs, k) in {None, Some(PNone)} ==> OrderedDict.Get(Sanitize(attrs), k) == None
  {
    SanitizeKeys(attrs);
    SanitizeScalars(attrs);
    forall k
      ensures OrderedDict.Get(attrs, k) in {None, Some(PNone)} ==> OrderedDict.Get(Sanitize(attrs), k) == None
      ensures OrderedDict.Get(attrs, k).Some? && OrderedDict.Get(attrs, k).value != PNone ==>
                OrderedDict.Get(Sanitize(attrs), k) == Some(SanitizedValue(OrderedDict.Get(attrs, k).value))
    {
      SanitizeGet(attrs, k);
    }
  }

  /** The value sanitising stores for a value that is not `None`. */
  function SanitizedValue(v: PyValue): PyValue {
    if IsScalar(v) then v else PStr(Str(v))
  }

  /** Sanitising keeps the keys with a value other than `None`, in order, and no other key. */
  lemma {:induction false} SanitizeKeys(attrs: Attrs)
    requires OrderedDict.UniqueKeys(attrs)
    ensures OrderedDict.Keys(Sanitize(attrs)) == PresentKeys(attrs)
    ensures forall k :: k in OrderedDict.Keys(Sanitize(attrs)) ==> k in OrderedDict.Keys(attrs)
    ensures OrderedDict.UniqueKeys(Sanitize(attrs))
    decreases |attrs|
  {
    if attrs != [] {
      var init := attrs[..|attrs| - 1];
      var (k, v) := attrs[|attrs| - 1];
      assert OrderedDict.UniqueKeys(init);
      SanitizeKeys(init);
      assert OrderedDict.Keys(attrs) == OrderedDict.Keys(init) + [k];
      assert k !in OrderedDict.Keys(init);
      var s := Sanitize(init);
      assert k !in OrderedDict.Keys(s);
      if v != PNone {
        var s' := Sanitize(attrs);
        assert s'[..|s'| - 1] == s;
        assert OrderedDict.Keys(s') == OrderedDict.Keys(s) + [k];
      }
    }
  }

  /** Every value sanitising produces is a scalar. */
  lemma {:induction false} SanitizeScalars(attrs: Attrs)
    ensures forall i :: 0 <= i < |Sanitize(attrs)| ==> IsScalar(Sanitize(attrs)[i].1)
    decreases |attrs|
  {
    if attrs != [] {
      SanitizeScalars(attrs[..|attrs| - 1]);
    }
  }

  /** What sanitising stores under one key. */
  lemma {:induction false} SanitizeGet(attrs: Attrs, k: string)
    requires OrderedDict.UniqueKeys(attrs)
    ensures OrderedDict.Get(attrs, k) in {None, Some(PNone)} ==> OrderedDict.Get(Sanitize(attrs), k) == None
    ensures OrderedDict.Get(attrs, k).Some? && OrderedDict.Get(attrs, k).value != PNone ==>
              OrderedDict.Get(Sanitize(attrs), k) == Some(SanitizedValue(OrderedDict.Get(attrs, k).value))
    decreases |attrs|
  {
    if attrs != [] {
      var init := attrs[..|attrs| - 1];
      var (k', v) := attrs[|attrs| - 1];
      assert OrderedDict.UniqueKeys(init);
      SanitizeGet(init, k);
      if k == k' {
        SanitizeKeys(init);
        assert OrderedDict.Keys(attrs) == OrderedDict.Keys(init) + [k];
        OrderedDict.GetDefined(Sanitize(init), k);
      }
    }
  }

  /** Sanitising twice is sanitising once. */
  lemma {:induction false} SanitizeIdempotent(attrs: Attrs)
    ensures Sanitize(Sanitize(attrs)) == Sanitize(attrs)
    decreases |attrs|
  {
    if attrs != [] {
      var init := attrs[..|attrs| - 1];
      SanitizeIdempotent(init);
      var s, s' := Sanitize(init), Sanitize(attrs);
      if s' != s {
        assert s'[..|s'| - 1] == s;
        assert IsScalar(s'[|s'| - 1].1);
      }
    }
  }

  // ----- merge_attributes -----

  /** `merge_attributes(*attribute_sets)`: a fresh dictionary updated with each set in turn. */
  function Merge(sets: seq<Attrs>): Attrs {
    if |sets| == 0 then [] else OrderedDict.Update(Merge(sets[..|sets| - 1]), sets[|sets| - 1])
  }

  /** The value of `k` in the last set that has it. */
  function LastValue(sets: seq<Attrs>, k: string): Option<PyValue> {
    if |sets| == 0 then None
    else if k in OrderedDict.Keys(sets[|sets| - 1]) then OrderedDict.Get(sets[|sets| - 1], k)
    else LastValue(sets[..|sets| - 1], k)
  }

  /** Merging: every key takes its value from the last set that has it, and keys stay unique. */
  lemma {:induction false} MergeProperties(sets: seq<Attrs>)
    ensures OrderedDict.UniqueKeys(Merge(sets))
    ensures forall k :: OrderedDict.Get(Merge(sets), k) == LastValue(sets, k)
    decreases |sets|
  {
    if sets != [] {
      var init := sets[..|sets| - 1];
      MergeProperties(init);
      OrderedDict.UpdateProperties(Merge(init), sets[|sets| - 1]);
    }
  }
}
