/** Runs (`core_api/run.py`): the status of a run, the documents of its
    result, and `run`, which submits one function call as a one-processor
    pipeline. The platform's answers are the fields of a `Remote`; the
    calls the SDK makes are returned as requests, and the pipeline store is
    threaded through. */
module Runs {
  import opened Wrappers
  import opened Dicts
  import opened FunctionRefs
  import opened Processors
  import opened Documents
  import opened Operations
  import opened Pipelines

  /** `RunStatus`: the statuses the type declares. */
  datatype RunStatus = InProgress | Completed | Failed

  /** `Run.status()` on the raw status text the platform reports. Only the
      three in-progress spellings are accepted; `completed` and `failed`,
      though declared, are rejected like any unknown text. */
  function Status(raw: string): (r: Result<RunStatus>)
    ensures r.Ok? <==> raw == "in_progress" || raw == "running" || raw == "waiting"
    ensures r.Ok? ==> r.value == InProgress
    ensures r.Err? ==> r.error == ValueError("Unknown run status: " + raw)
    ensures raw == "completed" || raw == "failed" ==> r.Err?
  {
    match raw
    case "in_progress" => Ok(InProgress)
    case "running" => Ok(InProgress)
    case "waiting" => Ok(InProgress)
    case _ => Err(ValueError("Unknown run status: " + raw))
  }

  const NoPipelineMessage :=
    "You cannot obtain results from a run that is not associated with a pipeline (i.e. `pipeline_id` is not set)"

  /** `get_collections_by_group_name(name, operation_id, run_id).data`: the
      collections of a result, each with its documents, already parsed. */
  type Fetch = (string, string, string) -> seq<seq<Data>>

  /** `run.results.docs()`: the documents of the first collection of the
      `__main__` result, named after the hash of the stored processors. */
  function Docs(run: Run, store: Store, digest: Digest, fetch: Fetch): (r: Result<seq<Data>>)
    ensures run.pipelineId.None? ==> r == Err(ValueError(NoPipelineMessage))
    ensures run.pipelineId.Some? && run.pipelineId.value !in store ==> r == Err(NotFound(run.pipelineId.value))
    ensures run.pipelineId.Some? && run.pipelineId.value in store ==>
      var stored := store[run.pipelineId.value].processors;
      var cols := fetch(ResultName(digest(stored), "__main__"), run.operationId, run.id);
      && ("__main__" !in stored ==> r == Ok([]))
      && ("__main__" in stored && |cols| == 0 ==> r == Err(IndexError))
      && ("__main__" in stored && |cols| > 0 ==> r == Ok(cols[0]))
  {
    if run.pipelineId.None? then Err(ValueError(NoPipelineMessage))
    else
      var p :- GetPipeline(store, run.pipelineId.value, digest);
      var results := AsCore(p, digest).results;
      if "__main__" !in results || |results["__main__"]| == 0 then Ok([])
      else
        var cols := fetch(results["__main__"][0], run.operationId, run.id);
        if |cols| == 0 then Err(IndexError) else Ok(cols[0])
  }

  /** The data of the last group named `k`. */
  function LastData(groups: seq<Positional>, k: string): (r: Option<Data>)
    ensures r.None? <==> !GroupNamed(groups, k)
    decreases |groups|
  {
    if |groups| == 0 then None
    else
      var t := LastData(groups[1..], k);
      GroupNamedCons(groups);
      if t.Some? then t
      else if groups[0].IsGroup? && groups[0].group.name == k then Some(groups[0].group.data)
      else None
  }

  /** `for group in groups: run_kwargs[group.name] = group.data`, raising a
      TypeError at the first argument that is not a Group. */
  function PutGroups(d: Dict<Data>, groups: seq<Positional>): (r: Result<Dict<Data>>)
    ensures r.Err? <==> Leading(groups) < |groups|
    ensures r.Err? ==> r.error == NotGroupError(groups[Leading(groups)].typeName)
    ensures r.Ok? ==> forall k :: Get(r.value, k) == if GroupNamed(groups, k) then LastData(groups, k) else Get(d, k)
    ensures r.Ok? && Valid(d) ==> Valid(r.value)
    decreases |groups|
  {
    if |groups| == 0 then Ok(d)
    else if groups[0].NotGroup? then Err(NotGroupError(groups[0].typeName))
    else
      var g := groups[0].group;
      var d' := Put(d, g.name, g.data);
      var r := PutGroups(d', groups[1..]);
      GroupNamedCons(groups);
      PutKeepsValid(d, g.name, g.data);
      r
  }

  /** `run_kwargs`: one entry per group name, the last group of a name
      winning, and then `__input__` for non-empty keyword arguments, which
      overrides a group of that name. */
  function RunKwargs(groups: seq<Positional>, kwargs: Data): (r: Result<Dict<Data>>)
    ensures r.Err? <==> Leading(groups) < |groups|
    ensures r.Err? ==> r.error == NotGroupError(groups[Leading(groups)].typeName)
    ensures r.Ok? ==> Valid(r.value)
    ensures r.Ok? ==>
      forall k :: Get(r.value, k) == if k == "__input__" && kwargs != map[] then Some(kwargs) else LastData(groups, k)
  {
    var d :- PutGroups([], groups);
    if kwargs != map[] then
      PutValid(d, "__input__", kwargs);
      Ok(Put(d, "__input__", kwargs))
    else Ok(d)
  }

  /** The `__main__` processor: one argument per `run_kwargs` key, reading
      the collection named like the key; no platform settings. */
  function MainProcessor(fref: FunctionRef, config: Option<ConfigData>, kw: Dict<Data>): (r: Processor)
    ensures r.image == fref && r.processorId == fref.processorId
    ensures r.cfg == ConfigOrEmpty(config) && r.settings.None?
    ensures forall k :: k in r.arguments <==> Get(kw, k).Some?
    ensures forall k :: k in r.arguments ==> r.arguments[k] == FromCollection(k)
  {
    KeysPresent(kw);
    Processor(fref, fref.processorId, ConfigOrEmpty(config), map k | k in Keys(kw) :: FromCollection(k), None)
  }

  /** `collection_name_map`: the arguments of the prepared `__main__`
      processor that name a non-empty collection. */
  function CollectionNameMap(main: Option<Processor>): (r: map<string, string>)
    ensures forall a :: a in r <==>
      && main.Some? && a in main.value.arguments
      && main.value.arguments[a].FromCollection? && main.value.arguments[a].collectionName != ""
    ensures forall a :: a in r ==> r[a] == main.value.arguments[a].collectionName
  {
    if main.None? then map[]
    else
      var args := main.value.arguments;
      map a | a in args && args[a].FromCollection? && args[a].collectionName != "" :: args[a].collectionName
  }

  /** `collection_name_map.get(g, g)`. */
  function Target(cmap: map<string, string>, g: string): string {
    if g in cmap then cmap[g] else g
  }

  /** The collection each keyword's upload goes to, in order. */
  function Targets(cmap: map<string, string>, kw: Dict<Data>): (r: seq<string>)
    ensures |r| == |kw|
    ensures forall i :: 0 <= i < |kw| ==> r[i] == Target(cmap, kw[i].0)
  {
    seq(|kw|, i requires 0 <= i < |kw| => Target(cmap, kw[i].0))
  }

  /** The platform's answers during one `run`. */
  datatype Remote = Remote(
    activeOps: string -> seq<string>,        // get_task_runs(pipeline id).ids
    prepared: string,                        // the operation pipeline_prepare creates
    mainPipeline: string -> Option<string>,  // get_run_main_pipeline_cfg(op).pipelineId; None: the call fails
    preparedPipeline: string -> Option<string>,  // the same call, asked again after the binding
    docId: nat -> string,                    // the id of the i-th document created
    prepareCfgUuid: string,                  // uuid4().hex of the cfg of operations.create
    runCfgUuid: string,                      // uuid4().hex of the cfg of runs.create
    runUuid: string)                         // uuid4().hex of the run

  predicate Fresh(remote: Remote) {
    IsUuidHex(remote.prepareCfgUuid) && IsUuidHex(remote.runCfgUuid) && IsUuidHex(remote.runUuid)
  }

  /** The operation `run` uses: the first active one, or a new one. */
  function Chosen(p: Pipeline, remote: Remote): Operation {
    var ops := remote.activeOps(p.id);
    if |ops| > 0 then Operation(ops[0], None) else Operation(remote.prepared, None)
  }

  /** Upsert the processors, take the first active operation of the
      pipeline or create one, and bind it with verification. */
  function Dispatch(store: Store, processors: map<string, Processor>, digest: Digest, remote: Remote)
    : (r: (Store, seq<Request>, Result<Operation>))
    requires IsUuidHex(remote.prepareCfgUuid)
    ensures var p := Upsert(store, processors, digest).1.value;
      var op := Chosen(p, remote);
      && r.0 == Upsert(store, processors, digest).0
      && (|remote.activeOps(p.id)| > 0 ==> r.1 == [])
      && (|remote.activeOps(p.id)| == 0 ==> r.1 == Create(p, remote.prepareCfgUuid, remote.prepared).0)
      && (r.2.Ok? <==> remote.mainPipeline(op.id) == Some(p.id))
      && (r.2.Ok? ==> r.2.value == Operation(op.id, Some(p.id)))
      && (r.2.Err? ==> r.2.error == NotAssociated(op))
  {
    var (store1, found) := Upsert(store, processors, digest);
    var p := found.value;
    var ops := Active(remote.activeOps(p.id));
    var (reqs, op) :=
      if |ops| > 0 then ([], ops[0]) else Create(p, remote.prepareCfgUuid, remote.prepared);
    var (op', bound) := BindPipeline(op, p.id, true, remote.mainPipeline(op.id));
    (store1, reqs, if bound.Err? then Err(bound.error) else Ok(op'))
  }

  /** The `__main__`-only processor map `run` upserts. */
  function RunProcessors(fref: FunctionRef, config: Option<ConfigData>, kw: Dict<Data>): map<string, Processor> {
    map["__main__" := MainProcessor(fref, config, kw)]
  }

  /** Upload each entry of `run_kwargs` in order and start the run with the
      collections, the config being `config or {}`. */
  function Submit(prepared: Pipeline, op: Operation, config: Option<ConfigData>, kw: Dict<Data>, remote: Remote)
    : (r: (seq<Request>, Run))
    requires IsUuidHex(remote.runCfgUuid) && IsUuidHex(remote.runUuid)
    ensures var cmap := CollectionNameMap(
        if "__main__" in prepared.processors then Some(prepared.processors["__main__"]) else None);
      var names := Targets(cmap, kw);
      && |r.0| == |kw| + 2
      && (forall i :: 0 <= i < |kw| ==> r.0[i] == CreateDoc(kw[i].1))
      && r.0[|kw|..] == RunsCreate(op, ConfigOrEmpty(config), Some(Collect(names, remote.docId)),
                                   remote.runCfgUuid, remote.runUuid).0
      && r.1 == RunsCreate(op, ConfigOrEmpty(config), Some(Collect(names, remote.docId)),
                           remote.runCfgUuid, remote.runUuid).1
  {
    var cmap := CollectionNameMap(
      if "__main__" in prepared.processors then Some(prepared.processors["__main__"]) else None);
    var names := Targets(cmap, kw);
    var uploads := seq(|kw|, i requires 0 <= i < |kw| => CreateDoc(kw[i].1));
    var (reqs, run) := RunsCreate(op, ConfigOrEmpty(config), Some(Collect(names, remote.docId)),
                                  remote.runCfgUuid, remote.runUuid);
    (uploads + reqs, run)
  }

  /** The prepared pipeline `run` reads back: the pipeline id of a second
      `get_run_main_pipeline_cfg` for the bound operation, then `Pipeline.get`.
      A failure of that second call propagates unchanged. */
  function Prepared(store: Store, op: Operation, digest: Digest, remote: Remote): (r: Result<Pipeline>)
    ensures remote.preparedPipeline(op.id).None? ==> r == Err(ApiError("get_run_main_pipeline_cfg"))
    ensures remote.preparedPipeline(op.id).Some? ==>
      r == GetPipeline(store, remote.preparedPipeline(op.id).value, digest)
  {
    match remote.preparedPipeline(op.id)
    case None => Err(ApiError("get_run_main_pipeline_cfg"))
    case Some(id) => GetPipeline(store, id, digest)
  }

  /** The platform answers the second `get_run_main_pipeline_cfg` for the
      operation as it answered the binding's. */
  predicate SameAnswer(remote: Remote, op: Operation) {
    remote.preparedPipeline(op.id) == remote.mainPipeline(op.id)
  }

  /** `run(function, config, *groups, **kwargs)`. */
  function RunFunction(store: Store, fn: FunctionSpec, config: Option<ConfigData>, groups: seq<Positional>,
                       kwargs: Data, digest: Digest, remote: Remote)
    : (r: (Store, seq<Request>, Result<Run>))
    requires Fresh(remote)
    ensures ResolveFunction(fn).Err? ==> r == (store, [], Err(ResolveFunction(fn).error))
    ensures ResolveFunction(fn).Ok? && Leading(groups) < |groups| ==>
      r == (store, [], Err(NotGroupError(groups[Leading(groups)].typeName)))
    ensures r.2.Ok? ==> ResolveFunction(fn).Ok? && Leading(groups) == |groups|
  {
    match ResolveFunction(fn)
    case Err(e) => (store, [], Err(e))
    case Ok(fref) =>
      match RunKwargs(groups, kwargs)
      case Err(e) => (store, [], Err(e))
      case Ok(kw) =>
        var (store1, reqs1, bound) := Dispatch(store, RunProcessors(fref, config, kw), digest, remote);
        if bound.Err? then (store1, reqs1, Err(bound.error))
        else
          var op := bound.value;
          match Prepared(store1, op, digest, remote)
          case Err(e) => (store1, reqs1, Err(e))
          case Ok(prepared) =>
            var (reqs2, run) := Submit(prepared, op, config, kw, remote);
            (store1, reqs1 + reqs2, Ok(run))
  }

  /** `run` tests its positional arguments against its own Group class
      (core_api/run.py's): an instance of the Group class of
      modelling/group.py raises the TypeError naming `Group` before any
      request, and a run is only submitted when every argument is an
      instance of `run`'s class. */
  lemma RunForeignGroup(store: Store, fn: FunctionSpec, config: Option<ConfigData>, vs: seq<PositionalValue>,
                        kwargs: Data, digest: Digest, remote: Remote)
    requires Fresh(remote) && ResolveFunction(fn).Ok?
    ensures var r := RunFunction(store, fn, config, ClassifyAll(vs, RunGroup), kwargs, digest, remote);
      && (r.2.Ok? ==> forall i :: 0 <= i < |vs| ==> Accepts(RunGroup, vs[i]))
      && (forall i :: (0 <= i < |vs| && vs[i].GroupOf? && vs[i].cls == ModellingGroup &&
                       (forall j :: 0 <= j < i ==> Accepts(RunGroup, vs[j]))) ==>
            r == (store, [], Err(NotGroupError("Group"))))
  {
    ClassifiedLeading(vs, RunGroup);
  }

  /** The steps of a `run` whose function and groups are accepted. */
  lemma RunSteps(store: Store, fn: FunctionSpec, config: Option<ConfigData>, groups: seq<Positional>,
                 kwargs: Data, digest: Digest, remote: Remote, fref: FunctionRef, kw: Dict<Data>)
    requires Fresh(remote) && ResolveFunction(fn) == Ok(fref) && RunKwargs(groups, kwargs) == Ok(kw)
    ensures var r := RunFunction(store, fn, config, groups, kwargs, digest, remote);
      var d := Dispatch(store, RunProcessors(fref, config, kw), digest, remote);
      && r.0 == d.0
      && (d.2.Err? ==> r.1 == d.1 && r.2 == Err(d.2.error))
      && (d.2.Ok? && Prepared(d.0, d.2.value, digest, remote).Err? ==>
            r.1 == d.1 && r.2.Err?)
      && (d.2.Ok? && Prepared(d.0, d.2.value, digest, remote).Ok? ==>
            var s := Submit(Prepared(d.0, d.2.value, digest, remote).value,
                            d.2.value, config, kw, remote);
            r.1 == d.1 + s.0 && r.2 == Ok(s.1))
  {
  }

  /** `run` upserts the `__main__` pipeline and binds the chosen
      operation with verification: a failed verification ends the call
      with the binding's ValueError. */
  lemma RunBindsOperation(store: Store, fn: FunctionSpec, config: Option<ConfigData>, groups: seq<Positional>,
                          kwargs: Data, digest: Digest, remote: Remote, fref: FunctionRef, kw: Dict<Data>)
    requires Fresh(remote) && ResolveFunction(fn) == Ok(fref) && RunKwargs(groups, kwargs) == Ok(kw)
    ensures var r := RunFunction(store, fn, config, groups, kwargs, digest, remote);
      var p := Upsert(store, RunProcessors(fref, config, kw), digest).1.value;
      var op := Chosen(p, remote);
      && r.0 == Upsert(store, RunProcessors(fref, config, kw), digest).0
      && (remote.mainPipeline(op.id) != Some(p.id) ==> r.2 == Err(NotAssociated(op)))
      && (remote.mainPipeline(op.id) == Some(p.id) && remote.preparedPipeline(op.id).None? ==>
            r.2 == Err(ApiError("get_run_main_pipeline_cfg")))
  {
    RunSteps(store, fn, config, groups, kwargs, digest, remote, fref, kw);
  }

  /** A submitted run belongs to the chosen operation (the first active
      one, or a new one) and to the upserted pipeline. */
  lemma RunUsesOperation(store: Store, fn: FunctionSpec, config: Option<ConfigData>, groups: seq<Positional>,
                         kwargs: Data, digest: Digest, remote: Remote, fref: FunctionRef, kw: Dict<Data>)
    requires Fresh(remote) && ResolveFunction(fn) == Ok(fref) && RunKwargs(groups, kwargs) == Ok(kw)
    requires RunFunction(store, fn, config, groups, kwargs, digest, remote).2.Ok?
    ensures var run := RunFunction(store, fn, config, groups, kwargs, digest, remote).2.value;
      var p := Upsert(store, RunProcessors(fref, config, kw), digest).1.value;
      && run.operationId == Chosen(p, remote).id
      && run.pipelineId == Some(p.id)
  {
    RunSteps(store, fn, config, groups, kwargs, digest, remote, fref, kw);
  }

  /** With no active operation, `run` first creates an empty cfg and
      prepares the pipeline with it. */
  lemma RunCreatesOperation(store: Store, fn: FunctionSpec, config: Option<ConfigData>, groups: seq<Positional>,
                            kwargs: Data, digest: Digest, remote: Remote, fref: FunctionRef, kw: Dict<Data>)
    requires Fresh(remote) && ResolveFunction(fn) == Ok(fref) && RunKwargs(groups, kwargs) == Ok(kw)
    requires |remote.activeOps(Upsert(store, RunProcessors(fref, config, kw), digest).1.value.id)| == 0
    ensures var reqs := RunFunction(store, fn, config, groups, kwargs, digest, remote).1;
      var p := Upsert(store, RunProcessors(fref, config, kw), digest).1.value;
      |reqs| >= 2 && reqs[..2] == Create(p, remote.prepareCfgUuid, remote.prepared).0
  {
    RunRequestsStart(store, fn, config, groups, kwargs, digest, remote, fref, kw);
  }

  /** The requests of a `run` begin with those of its dispatch. */
  lemma RunRequestsStart(store: Store, fn: FunctionSpec, config: Option<ConfigData>, groups: seq<Positional>,
                         kwargs: Data, digest: Digest, remote: Remote, fref: FunctionRef, kw: Dict<Data>)
    requires Fresh(remote) && ResolveFunction(fn) == Ok(fref) && RunKwargs(groups, kwargs) == Ok(kw)
    ensures Dispatch(store, RunProcessors(fref, config, kw), digest, remote).1
      <= RunFunction(store, fn, config, groups, kwargs, digest, remote).1
  {
    RunSteps(store, fn, config, groups, kwargs, digest, remote, fref, kw);
  }

  /** The collection map of the freshly stored `__main__` processor sends
      every name to itself. */
  lemma TargetsAreNames(fref: FunctionRef, config: Option<ConfigData>, kw: Dict<Data>)
    ensures var cmap := CollectionNameMap(Some(MainProcessor(fref, config, kw)));
      Targets(cmap, kw) == Keys(kw)
  {
    var cmap := CollectionNameMap(Some(MainProcessor(fref, config, kw)));
    MainTargetsThemselves(fref, config, kw);
    var names := Targets(cmap, kw);
    assert forall i :: 0 <= i < |kw| ==> names[i] == Keys(kw)[i];
  }

  lemma MainTargetsThemselves(fref: FunctionRef, config: Option<ConfigData>, kw: Dict<Data>)
    ensures forall g :: Target(CollectionNameMap(Some(MainProcessor(fref, config, kw))), g) == g
  {
    var main := MainProcessor(fref, config, kw);
    var cmap := CollectionNameMap(Some(main));
    forall g ensures Target(cmap, g) == g {
      if g in cmap {
        assert main.arguments[g] == FromCollection(g);
      }
    }
  }

  /** `run({"a": "1", "b": "2"})` and `run({"b": "2", "a": "1"})`: the two
      configs hold the same entries, yet their JSON texts differ, so the
      processors `run` upserts differ. Under a digest that tells them apart,
      as SHA-256 of the two texts does, the second call creates a pipeline
      of its own beside the first. */
  lemma ReorderedConfig(store: Store, fref: FunctionRef, kw: Dict<Data>, digest: Digest)
    ensures var c1: ConfigData := [("a", "1"), ("b", "2")];
      var c2: ConfigData := [("b", "2"), ("a", "1")];
      var p1 := RunProcessors(fref, Some(c1), kw);
      var p2 := RunProcessors(fref, Some(c2), kw);
      && (forall k :: Get(c1, k) == Get(c2, k))
      && p1 != p2
      && (digest(p1) != digest(p2) && digest(p2) !in store ==>
            var s1 := Upsert(store, p1, digest).0;
            && digest(p2) !in s1
            && Upsert(s1, p2, digest).0.Keys == s1.Keys + {digest(p2)})
  {
    var c1: ConfigData := [("a", "1"), ("b", "2")];
    var c2: ConfigData := [("b", "2"), ("a", "1")];
    forall k ensures Get(c1, k) == Get(c2, k) {
      assert Get(c1, k) == if k == "a" then Some("1") else if k == "b" then Some("2") else None;
      assert Get(c2, k) == if k == "b" then Some("2") else if k == "a" then Some("1") else None;
    }
    var p1 := RunProcessors(fref, Some(c1), kw);
    var p2 := RunProcessors(fref, Some(c2), kw);
    assert c1[0] != c2[0];
    assert p1["__main__"].cfg != p2["__main__"].cfg;
  }

  /** When `run` created the pipeline, the prepared pipeline it reads back
      is its own: every group's collection is the group's own name, each
      mapped to the document made from the last data under that name. */
  lemma RunFreshCollections(store: Store, fn: FunctionSpec, config: Option<ConfigData>, groups: seq<Positional>,
                            kwargs: Data, digest: Digest, remote: Remote, fref: FunctionRef, kw: Dict<Data>)
    requires Fresh(remote) && ResolveFunction(fn) == Ok(fref) && RunKwargs(groups, kwargs) == Ok(kw)
    requires digest(RunProcessors(fref, config, kw)) !in store
    requires SameAnswer(remote, Chosen(Upsert(store, RunProcessors(fref, config, kw), digest).1.value, remote))
    requires RunFunction(store, fn, config, groups, kwargs, digest, remote).2.Ok?
    ensures SubmittedCfg(RunFunction(store, fn, config, groups, kwargs, digest, remote).1)
      == Some(Cfg(Collect(Keys(kw), remote.docId), map["$__main__" := ConfigOrEmpty(config)]))
    ensures forall c :: c in Collect(Keys(kw), remote.docId) <==> Get(kw, c).Some?
  {
    var procs := RunProcessors(fref, config, kw);
    RunSteps(store, fn, config, groups, kwargs, digest, remote, fref, kw);
    UpsertRoundTrip(store, procs, digest);
    var (store1, reqs1, bound) := Dispatch(store, procs, digest, remote);
    var found := Prepared(store1, bound.value, digest, remote);
    assert found.value.processors == procs;
    SubmitOwnPipeline(found.value, bound.value, config, kw, remote, fref);
    SubmittedCfgAfter(reqs1, Submit(found.value, bound.value, config, kw, remote).0);
  }

  /** The cfg created for the run: the request just before the last. */
  function SubmittedCfg(reqs: seq<Request>): Option<Cfg> {
    if |reqs| >= 2 && reqs[|reqs| - 2].CreateCfg? then Some(reqs[|reqs| - 2].cfg) else None
  }

  lemma SubmittedCfgAfter(before: seq<Request>, reqs: seq<Request>)
    requires |reqs| >= 2
    ensures SubmittedCfg(before + reqs) == SubmittedCfg(reqs)
  {
    assert (before + reqs)[|before + reqs| - 2] == reqs[|reqs| - 2];
  }

  /** Submitting against the pipeline made of the `__main__` processor
      itself keys each collection by its group name. */
  lemma SubmitOwnPipeline(prepared: Pipeline, op: Operation, config: Option<ConfigData>, kw: Dict<Data>,
                          remote: Remote, fref: FunctionRef)
    requires IsUuidHex(remote.runCfgUuid) && IsUuidHex(remote.runUuid)
    requires prepared.processors == RunProcessors(fref, config, kw)
    ensures SubmittedCfg(Submit(prepared, op, config, kw, remote).0)
      == Some(Cfg(Collect(Keys(kw), remote.docId), map["$__main__" := ConfigOrEmpty(config)]))
    ensures forall c :: c in Collect(Keys(kw), remote.docId) <==> Get(kw, c).Some?
  {
    TargetsAreNames(fref, config, kw);
    KeysPresent(kw);
    var reqs := Submit(prepared, op, config, kw, remote).0;
    assert reqs[|reqs| - 2] == reqs[|kw|..][0];
  }

  /** The documents of a run that `run` submitted on a pipeline it created
      are read from the `__main__` result named after the hash of the
      submitted processors. */
  lemma RunThenDocs(store: Store, fn: FunctionSpec, config: Option<ConfigData>, groups: seq<Positional>,
                    kwargs: Data, digest: Digest, remote: Remote, fref: FunctionRef, kw: Dict<Data>, fetch: Fetch)
    requires Fresh(remote) && ResolveFunction(fn) == Ok(fref) && RunKwargs(groups, kwargs) == Ok(kw)
    requires digest(RunProcessors(fref, config, kw)) !in store
    requires RunFunction(store, fn, config, groups, kwargs, digest, remote).2.Ok?
    ensures var r := RunFunction(store, fn, config, groups, kwargs, digest, remote);
      var run := r.2.value;
      var cols := fetch(ResultName(digest(RunProcessors(fref, config, kw)), "__main__"), run.operationId, run.id);
      Docs(run, r.0, digest, fetch) == if |cols| == 0 then Err(IndexError) else Ok(cols[0])
  {
    RunUsesOperation(store, fn, config, groups, kwargs, digest, remote, fref, kw);
    RunBindsOperation(store, fn, config, groups, kwargs, digest, remote, fref, kw);
    UpsertRoundTrip(store, RunProcessors(fref, config, kw), digest);
  }
}
