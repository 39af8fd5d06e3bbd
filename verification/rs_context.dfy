/**
 * The Rust SDK's context manager (`context.rs`): one slot holding the
 * current workflow. Starting a workflow fills the slot, ending it empties
 * it; setting attributes is not implemented and only logs. The shared
 * `Arc<RwLock<…>>` is a value here, since the operations are modelled one
 * at a time.
 */
module RsContext {
  import opened Wrappers
  import opened RsTypes
  import E = RsErrors

  datatype Context = Context(current: Option<Workflow>)

  /** `UntraceContext::new()`. */
  function NewContext(): (c: Context)
    ensures c.current.None?
  {
    Context(None)
  }

  /**
   * `start_workflow(name, run_id, options)`. The fresh workflow id and the
   * current time are passed in as `id` and `now`.
   */
  function StartWorkflow(c: Context, name: string, runId: string, options: WorkflowOptions, id: string, now: int)
    : (Context, Result<Workflow, E.UntraceError>)
  {
    var w := NewWorkflow(name, runId, options, id, now);
    (Context(Some(w)), Ok(w))
  }

  /** `get_current_workflow()`. */
  function GetCurrentWorkflow(c: Context): Option<Workflow> {
    c.current
  }

  /** `end_current_workflow()`. */
  function EndCurrentWorkflow(c: Context): (Context, Result<(), E.UntraceError>) {
    (Context(None), Ok(()))
  }

  /** `set_attribute(key, value)`: a placeholder that succeeds and changes nothing. */
  function SetAttribute(c: Context, key: string, value: string): (Context, Result<(), E.UntraceError>) {
    (c, Ok(()))
  }

  /** `set_attributes(attributes)`: `set_attribute` for each entry, visited in `order`, stopping at an error. */
  function SetAttributes(c: Context, attributes: map<string, string>, order: seq<string>): (Context, Result<(), E.UntraceError>)
    requires forall k :: k in order ==> k in attributes
    decreases |order|
  {
    if |order| == 0 then (c, Ok(()))
    else
      var (c1, r) := SetAttribute(c, order[0], attributes[order[0]]);
      if r.Err? then (c1, r) else SetAttributes(c1, attributes, order[1..])
  }

  /**
   * Starting a workflow always succeeds, and the workflow it returns, built
   * from the given name, run id and options, becomes the current one,
   * replacing any earlier one.
   */
  lemma StartThenGet(c: Context, name: string, runId: string, options: WorkflowOptions, id: string, now: int)
    ensures var (c', r) := StartWorkflow(c, name, runId, options, id, now);
            && r.Ok? && GetCurrentWorkflow(c') == Some(r.value)
            && r.value.name == name && r.value.runId == runId && OptionsOf(r.value) == options
  {
    NewWorkflowCopies(name, runId, options, id, now);
  }

  /** Ending always succeeds and leaves no current workflow, whether or not there was one. */
  lemma EndThenGet(c: Context)
    ensures EndCurrentWorkflow(c).1.Ok? && GetCurrentWorkflow(EndCurrentWorkflow(c).0).None?
    ensures EndCurrentWorkflow(EndCurrentWorkflow(c).0) == EndCurrentWorkflow(c)
    ensures EndCurrentWorkflow(c).0 == NewContext()
  {
  }

  /** Setting attributes, one or many, succeeds and leaves the current workflow as it was. */
  lemma {:induction false} SetAttributesKeepState(c: Context, attributes: map<string, string>, order: seq<string>)
    requires forall k :: k in order ==> k in attributes
    ensures SetAttributes(c, attributes, order) == (c, Ok(()))
    decreases |order|
  {
    if order != [] {
      SetAttributesKeepState(c, attributes, order[1..]);
    }
  }
}
