/**
 * The Go SDK's workflow context (`context.go`). The context keeps the
 * running workflows by run id; each workflow holds its own attribute map
 * and an ended flag. Workflows are shared pointers in Go, so here they
 * live in a list and are named by their index in it, a handle.
 */
module GoContext {
  import opened Wrappers
  import opened GoValues
  import GoMetrics
  import GoTracer

  /** `WorkflowOptions`. */
  datatype WorkflowOptions = WorkflowOptions(userId: string, sessionId: string, version: string, parentId: string, metadata: GoMap)

  /** `untraceWorkflow`: the fields that change what it does. */
  datatype Workflow = Workflow(name: string, runId: string, opts: WorkflowOptions, attrs: GoMap, ended: bool)

  /** `untraceContext`, with every workflow ever started in `workflows` and the live ones in `registry`. */
  datatype State = State(workflows: seq<Workflow>, registry: map<string, nat>)

  /** Every registration names a workflow started under that run id and not yet ended. */
  predicate Valid(st: State) {
    forall r :: r in st.registry ==>
      && st.registry[r] < |st.workflows|
      && st.workflows[st.registry[r]].runId == r
      && !st.workflows[st.registry[r]].ended
  }

  /** `NewContext()`. */
  function NewContext(): (st: State)
    ensures Valid(st) && st.registry == map[]
  {
    State([], map[])
  }

  const MetadataPrefix := "workflow.metadata."
  const NameKey := "workflow.name"
  const RunIdKey := "workflow.run_id"
  const VersionKey := "workflow.version"
  const ParentIdKey := "workflow.parent_id"
  const UserIdKey := "workflow.user_id"
  const SessionIdKey := "workflow.session_id"

  /** The six workflow keys differ: after the shared "workflow." each starts with its own letter. */
  lemma FixedKeysDistinct()
    ensures NameKey != RunIdKey && NameKey != VersionKey && NameKey != ParentIdKey
    ensures NameKey != UserIdKey && NameKey != SessionIdKey
    ensures RunIdKey != VersionKey && RunIdKey != ParentIdKey && RunIdKey != UserIdKey && RunIdKey != SessionIdKey
    ensures VersionKey != ParentIdKey && VersionKey != UserIdKey && VersionKey != SessionIdKey
    ensures ParentIdKey != UserIdKey && ParentIdKey != SessionIdKey && UserIdKey != SessionIdKey
  {
    assert NameKey[9] == 'n' && RunIdKey[9] == 'r' && VersionKey[9] == 'v';
    assert ParentIdKey[9] == 'p' && UserIdKey[9] == 'u' && SessionIdKey[9] == 's';
  }

  /** The optional attribute a non-empty option sets. */
  function OptionalAttribute(key: string, value: string): GoMap {
    if value != "" then map[key := GString(value)] else map[]
  }

  /** The metadata entries, each under its prefixed key. */
  function PrefixedMetadata(metadata: GoMap): GoMap {
    PrefixInjective();
    map k | k in metadata :: MetadataPrefix + k := metadata[k]
  }

  /** Different keys stay different under the prefix. */
  lemma PrefixInjective()
    ensures forall a: string, b: string :: MetadataPrefix + a == MetadataPrefix + b ==> a == b
  {
    forall a: string, b: string | MetadataPrefix + a == MetadataPrefix + b ensures a == b {
      assert (MetadataPrefix + a)[|MetadataPrefix|..] == a;
      assert (MetadataPrefix + b)[|MetadataPrefix|..] == b;
    }
  }

  /** The attributes `StartWorkflow` sets before the metadata. */
  function FixedAttributes(name: string, runId: string, opts: WorkflowOptions): GoMap {
    map[NameKey := GString(name), RunIdKey := GString(runId)]
      + OptionalAttribute(VersionKey, opts.version)
      + OptionalAttribute(ParentIdKey, opts.parentId)
      + OptionalAttribute(UserIdKey, opts.userId)
      + OptionalAttribute(SessionIdKey, opts.sessionId)
  }

  /** The attributes `StartWorkflow` gives a new workflow. */
  function InitialAttributes(name: string, runId: string, opts: WorkflowOptions): GoMap {
    FixedAttributes(name, runId, opts) + PrefixedMetadata(opts.metadata)
  }

  /** Only the six workflow keys, with the name and run id always among them. */
  lemma FixedAttributesKeys(name: string, runId: string, opts: WorkflowOptions)
    ensures var a := FixedAttributes(name, runId, opts);
            && a.Keys <= {NameKey, RunIdKey, VersionKey, ParentIdKey,
                          UserIdKey, SessionIdKey}
            && NameKey in a && a[NameKey] == GString(name)
            && RunIdKey in a && a[RunIdKey] == GString(runId)
  {
    var m0 := map[NameKey := GString(name), RunIdKey := GString(runId)];
    var m1 := m0 + OptionalAttribute(VersionKey, opts.version);
    var m2 := m1 + OptionalAttribute(ParentIdKey, opts.parentId);
    var m3 := m2 + OptionalAttribute(UserIdKey, opts.userId);
    FixedKeysDistinct();
    MergeOptional(m0, VersionKey, opts.version);
    MergeOptional(m1, ParentIdKey, opts.parentId);
    MergeOptional(m2, UserIdKey, opts.userId);
    MergeOptional(m3, SessionIdKey, opts.sessionId);
  }

  /** Version, parent id, user id and session id are set exactly when non-empty, to the option's value. */
  lemma FixedAttributesOptional(name: string, runId: string, opts: WorkflowOptions)
    ensures var a := FixedAttributes(name, runId, opts);
            && (VersionKey in a <==> opts.version != "")
            && (ParentIdKey in a <==> opts.parentId != "")
            && (UserIdKey in a <==> opts.userId != "")
            && (SessionIdKey in a <==> opts.sessionId != "")
            && (opts.version != "" ==> a[VersionKey] == GString(opts.version))
            && (opts.parentId != "" ==> a[ParentIdKey] == GString(opts.parentId))
            && (opts.userId != "" ==> a[UserIdKey] == GString(opts.userId))
            && (opts.sessionId != "" ==> a[SessionIdKey] == GString(opts.sessionId))
  {
    var m0 := map[NameKey := GString(name), RunIdKey := GString(runId)];
    var m1 := m0 + OptionalAttribute(VersionKey, opts.version);
    var m2 := m1 + OptionalAttribute(ParentIdKey, opts.parentId);
    var m3 := m2 + OptionalAttribute(UserIdKey, opts.userId);
    FixedKeysDistinct();
    MergeOptional(m0, VersionKey, opts.version);
    MergeOptional(m1, ParentIdKey, opts.parentId);
    MergeOptional(m2, UserIdKey, opts.userId);
    MergeOptional(m3, SessionIdKey, opts.sessionId);
  }

  /** Merging an optional attribute sets its key exactly when the value is non-empty, and nothing else. */
  lemma MergeOptional(m: GoMap, key: string, value: string)
    ensures var r := m + OptionalAttribute(key, value);
            && r.Keys <= m.Keys + {key}
            && (key in r <==> key in m || value != "")
            && (value != "" ==> r[key] == GString(value))
            && (forall k :: k != key ==> (k in r <==> k in m))
            && (forall k :: k != key && k in m ==> r[k] == m[k])
  {
  }

  /** None of the fixed keys starts with the metadata prefix. */
  lemma NotPrefixed(k: string)
    requires |k| >= |MetadataPrefix| && k[..|MetadataPrefix|] == MetadataPrefix
    ensures k !in {NameKey, RunIdKey, VersionKey, ParentIdKey,
                   UserIdKey, SessionIdKey}
  {
    assert k[9] == 'm';
  }

  /** Metadata never overrides a fixed attribute, whatever its keys. */
  lemma MetadataDisjoint(name: string, runId: string, opts: WorkflowOptions)
    ensures forall k :: k in PrefixedMetadata(opts.metadata) ==> k !in FixedAttributes(name, runId, opts)
  {
    FixedAttributesKeys(name, runId, opts);
    forall k | k in PrefixedMetadata(opts.metadata)
      ensures k !in FixedAttributes(name, runId, opts)
    {
      var j :| j in opts.metadata && k == MetadataPrefix + j;
      assert k[..|MetadataPrefix|] == MetadataPrefix;
      NotPrefixed(k);
    }
  }

  /** The metadata does not change any fixed attribute. */
  lemma InitialAttributesKeepFixed(name: string, runId: string, opts: WorkflowOptions)
    ensures var a := InitialAttributes(name, runId, opts);
            var fixed := FixedAttributes(name, runId, opts);
            forall k :: k in fixed ==> k in a && a[k] == fixed[k]
  {
    var meta := PrefixedMetadata(opts.metadata);
    MetadataDisjoint(name, runId, opts);
    forall k | k in FixedAttributes(name, runId, opts) ensures k !in meta {
    }
  }

  /**
   * Each metadata entry is an attribute under "workflow.metadata." and its
   * key, and every attribute is a fixed one or such an entry.
   */
  lemma InitialAttributesMetadata(name: string, runId: string, opts: WorkflowOptions)
    ensures var a := InitialAttributes(name, runId, opts);
            && (forall k :: k in opts.metadata ==> MetadataPrefix + k in a && a[MetadataPrefix + k] == opts.metadata[k])
            && (forall k :: k in a ==> k in FixedAttributes(name, runId, opts) || k in PrefixedMetadata(opts.metadata))
  {
    PrefixInjective();
    var meta := PrefixedMetadata(opts.metadata);
    forall k | k in opts.metadata ensures MetadataPrefix + k in meta && meta[MetadataPrefix + k] == opts.metadata[k] {
    }
  }

  /** `c.StartWorkflow(name, runID, opts)`: the new workflow's handle, registered under its run id. */
  function StartWorkflow(st: State, name: string, runId: string, opts: WorkflowOptions): (State, nat) {
    var h: nat := |st.workflows|;
    var w := Workflow(name, runId, opts, InitialAttributes(name, runId, opts), false);
    (State(st.workflows + [w], st.registry[runId := h]), h)
  }

  /**
   * Starting a workflow keeps the context valid, registers the new, not yet
   * ended workflow under its run id, replacing any earlier one there, and
   * leaves every other registration and every earlier workflow as it was.
   */
  lemma StartWorkflowProperties(st: State, name: string, runId: string, opts: WorkflowOptions)
    requires Valid(st)
    ensures var (st', h) := StartWorkflow(st, name, runId, opts);
            && Valid(st')
            && h < |st'.workflows| && st'.registry[runId] == h && !st'.workflows[h].ended
            && st'.workflows[h].attrs == InitialAttributes(name, runId, opts)
            && st'.workflows[..h] == st.workflows
            && forall r :: r != runId ==> (r in st'.registry <==> r in st.registry)
                                          && (r in st.registry ==> st'.registry[r] == st.registry[r])
  {
  }

  /** `c.GetCurrentWorkflow()`: some registered workflow, which one Go's map order decides. */
  method GetCurrentWorkflow(st: State) returns (w: Option<nat>)
    requires Valid(st)
    ensures w.None? <==> st.registry == map[]
    ensures w.Some? ==> w.value < |st.workflows| && exists r :: r in st.registry && st.registry[r] == w.value
  {
    if st.registry == map[] {
      return None;
    }
    var r :| r in st.registry;
    return Some(st.registry[r]);
  }

  /** `w.End()` as written: the first call marks it ended and deletes whatever is registered under its run id. */
  function EndAsWritten(st: State, h: nat): State
    requires h < |st.workflows|
  {
    var w := st.workflows[h];
    if w.ended then st
    else State(st.workflows[h := w.(ended := true)], st.registry - {w.runId})
  }

  /**
   * Ending a workflow that a later one with the same run id has replaced
   * deletes the later one's registration although the later one is still
   * running.
   */
  lemma EndAsWrittenDefect(st: State, first: string, second: string, runId: string, o1: WorkflowOptions, o2: WorkflowOptions)
    requires Valid(st)
    ensures var (s1, a) := StartWorkflow(st, first, runId, o1);
            var (s2, b) := StartWorkflow(s1, second, runId, o2);
            var s3 := EndAsWritten(s2, a);
            && a != b && s2.registry[runId] == b && !s3.workflows[b].ended && runId !in s3.registry
  {
  }

  /** With the correction, ending the replaced workflow leaves the replacement registered. */
  lemma EndKeepsReplacement(st: State, first: string, second: string, runId: string, o1: WorkflowOptions, o2: WorkflowOptions)
    requires Valid(st)
    ensures var (s1, a) := StartWorkflow(st, first, runId, o1);
            var (s2, b) := StartWorkflow(s1, second, runId, o2);
            var s3 := End(s2, a);
            && s3.workflows[a].ended && runId in s3.registry && s3.registry[runId] == b
  {
  }

  /** `w.End()`, removing the registration only when it is this workflow's. */
  function End(st: State, h: nat): State
    requires h < |st.workflows|
  {
    var w := st.workflows[h];
    if w.ended then st
    else
      var registry := if w.runId in st.registry && st.registry[w.runId] == h then st.registry - {w.runId} else st.registry;
      State(st.workflows[h := w.(ended := true)], registry)
  }

  /**
   * Ending marks the workflow ended, drops its own registration if it has
   * one and touches no other workflow or registration; ending twice is
   * ending once.
   */
  lemma EndProperties(st: State, h: nat)
    requires Valid(st) && h < |st.workflows|
    ensures var st' := End(st, h);
            && Valid(st')
            && |st'.workflows| == |st.workflows| && st'.workflows[h].ended
            && (forall j :: 0 <= j < |st.workflows| && j != h ==> st'.workflows[j] == st.workflows[j])
            && (forall r :: r in st'.registry ==> st'.registry[r] != h)
            && (forall r :: r in st.registry && st.registry[r] != h ==> r in st'.registry && st'.registry[r] == st.registry[r])
            && End(st', h) == st'
  {
  }

  /** The two ends agree unless the workflow's run id was taken over by another. */
  lemma EndAgreesUnlessReplaced(st: State, h: nat)
    requires Valid(st) && h < |st.workflows|
    requires var r := st.workflows[h].runId; r in st.registry ==> st.registry[r] == h
    ensures End(st, h) == EndAsWritten(st, h)
  {
  }

  /** `w.SetAttribute(key, value)`; an ended workflow still accepts attributes. */
  function SetAttribute(st: State, h: nat, key: string, value: GoValue): State
    requires h < |st.workflows|
  {
    var w := st.workflows[h];
    st.(workflows := st.workflows[h := w.(attrs := w.attrs[key := value])])
  }

  /** `w.SetAttributes(attrs)`: every given entry, overriding an existing one. */
  function SetAttributes(st: State, h: nat, attrs: GoMap): State
    requires h < |st.workflows|
  {
    var w := st.workflows[h];
    st.(workflows := st.workflows[h := w.(attrs := w.attrs + attrs)])
  }

  /** `w.GetAttributes()`: a copy of the workflow's attributes. */
  function GetAttributes(st: State, h: nat): GoMap
    requires h < |st.workflows|
  {
    st.workflows[h].attrs
  }

  /**
   * A set attribute reads back, every other attribute and every other
   * workflow are unchanged, and registrations are not touched.
   */
  lemma SetAttributeGet(st: State, h: nat, key: string, value: GoValue, k: string)
    requires h < |st.workflows|
    ensures var st' := SetAttribute(st, h, key, value);
            && GetAttributes(st', h)[key] == value
            && (k != key ==> (k in GetAttributes(st', h) <==> k in GetAttributes(st, h)))
            && (k != key && k in GetAttributes(st, h) ==> GetAttributes(st', h)[k] == GetAttributes(st, h)[k])
            && st'.registry == st.registry
            && forall j :: 0 <= j < |st.workflows| && j != h ==> st'.workflows[j] == st.workflows[j]
  {
  }

  /** Setting a map of attributes is setting each of them: the given value wins, other keys keep theirs. */
  lemma SetAttributesGet(st: State, h: nat, attrs: GoMap)
    requires h < |st.workflows|
    ensures var got := GetAttributes(SetAttributes(st, h, attrs), h);
            && got.Keys == GetAttributes(st, h).Keys + attrs.Keys
            && (forall k :: k in attrs ==> got[k] == attrs[k])
            && (forall k :: k in GetAttributes(st, h) && k !in attrs ==> got[k] == GetAttributes(st, h)[k])
  {
  }

  /** `w.BuildAttributes()`, the keys visited in `order`. */
  function BuildAttributes(st: State, h: nat, order: seq<string>): seq<KeyValue>
    requires h < |st.workflows| && Enumerates(order, st.workflows[h].attrs.Keys)
  {
    GoMetrics.BuildAttributes(st.workflows[h].attrs, order)
  }

  /** A new workflow's span attributes carry its name and run id as strings, one per attribute. */
  lemma StartedWorkflowAttributes(st: State, name: string, runId: string, opts: WorkflowOptions, order: seq<string>)
    requires Enumerates(order, InitialAttributes(name, runId, opts).Keys)
    ensures var (st', h) := StartWorkflow(st, name, runId, opts);
            var kvs := BuildAttributes(st', h, order);
            && |kvs| == |InitialAttributes(name, runId, opts)|
            && KeyValue(NameKey, AString(name)) in kvs
            && KeyValue(RunIdKey, AString(runId)) in kvs
  {
    var a := InitialAttributes(name, runId, opts);
    FixedAttributesKeys(name, runId, opts);
    InitialAttributesKeepFixed(name, runId, opts);
    GoMetrics.BuildAttributesHasString(a, order, NameKey, name);
    GoMetrics.BuildAttributesHasString(a, order, RunIdKey, runId);
    GoTracer.DistinctCard(order);
  }
}
