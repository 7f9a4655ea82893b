/** Operations and runs of the platform (`core_api/operation.py`): binding
    an operation to its pipeline and submitting a run of it. The platform's
    answers (the pipeline an operation was prepared for, fresh uuids) are
    parameters; what the SDK sends to the platform is returned as a list of
    requests. */
module Operations {
  import opened Wrappers
  import opened Processors
  import opened FunctionRefs

  /** A run configuration: input collections by name, and the config of the
      main app under the extension key `$__main__` (kept as the dict whose
      JSON text is sent). */
  datatype Cfg = Cfg(collections: map<string, string>, extension: map<string, ConfigData>)

  /** `Cfg()`. */
  const EmptyCfg := Cfg(map[], map[])

  /** A call the SDK makes on the platform. */
  datatype Request =
    | CreateCfg(cfgId: string, cfg: Cfg)
    | Prepare(pipelineId: string, cfgId: string)
    | TaskRun(operationId: string, cfgId: string, runId: string)
    | CreateDoc(data: Data)

  /** A prepared pipeline on the platform, possibly bound to its pipeline. */
  datatype Operation = Operation(id: string, pipelineId: Option<string>)

  /** A submitted run. */
  datatype Run = Run(id: string, operationId: string, pipelineId: Option<string>)

  /** The ValueError of a failed verification. The check's own message
      about a mismatch is replaced by this one in the handler around it. */
  function NotAssociated(op: Operation): Error {
    ValueError("Operation " + op.id + " is not associated with any pipeline")
  }

  /** `bind_pipeline(pipelineId, verify=verify)`. `lookup` is the pipeline
      id the platform reports for the operation, None when the lookup
      fails. */
  function BindPipeline(op: Operation, pipelineId: string, verify: bool, lookup: Option<string>)
    : (r: (Operation, Result<()>))
    ensures r.1.Ok? <==> !verify || lookup == Some(pipelineId)
    ensures r.1.Ok? ==> r.0 == op.(pipelineId := Some(pipelineId))
    ensures r.1.Err? ==> r.0 == op && r.1.error == NotAssociated(op)
  {
    if verify && lookup != Some(pipelineId) then (op, Err(NotAssociated(op)))
    else (op.(pipelineId := Some(pipelineId)), Ok(()))
  }

  /** Binding twice to the same pipeline changes nothing the second time. */
  lemma BindIdempotent(op: Operation, pipelineId: string, verify: bool, lookup: Option<string>)
    requires BindPipeline(op, pipelineId, verify, lookup).1.Ok?
    ensures var op' := BindPipeline(op, pipelineId, verify, lookup).0;
      BindPipeline(op', pipelineId, verify, lookup) == (op', Ok(()))
  {
  }

  /** `operation.runs.create(config, collections=collections)`: a fresh cfg
      holding `collections or {}` and the config under `$__main__` is
      created, then the operation is started with it under a fresh run id. */
  function RunsCreate(op: Operation, config: ConfigData, collections: Option<map<string, string>>,
                      cfgUuid: string, runUuid: string): (r: (seq<Request>, Run))
    requires IsUuidHex(cfgUuid) && IsUuidHex(runUuid)
    ensures |r.0| == 2 && r.0[0].CreateCfg? && r.0[1].TaskRun?
    ensures r.0[1].cfgId == r.0[0].cfgId && r.0[1].operationId == op.id && r.0[1].runId == r.1.id
    ensures r.0[0].cfg.collections == collections.GetOr(map[])
    ensures r.0[0].cfg.extension.Keys == {"$__main__"} && r.0[0].cfg.extension["$__main__"] == config
    ensures r.1.operationId == op.id && r.1.pipelineId == op.pipelineId
    ensures "cfg_" <= r.0[0].cfgId && "run_" <= r.1.id
  {
    var cfgId := GetId("cfg", cfgUuid);
    var runId := GetId("run", runUuid);
    var cfg := Cfg(if collections.Some? then collections.value else map[], map["$__main__" := config]);
    ([CreateCfg(cfgId, cfg), TaskRun(op.id, cfgId, runId)], Run(runId, op.id, op.pipelineId))
  }

  /** Distinct run uuids give distinct runs of the same operation. */
  lemma RunsCreateFresh(op: Operation, config: ConfigData, collections: Option<map<string, string>>,
                        cfgUuid: string, runUuid: string, runUuid2: string)
    requires IsUuidHex(cfgUuid) && IsUuidHex(runUuid) && IsUuidHex(runUuid2) && runUuid != runUuid2
    ensures RunsCreate(op, config, collections, cfgUuid, runUuid).1.id
      != RunsCreate(op, config, collections, cfgUuid, runUuid2).1.id
  {
    if GetId("run", runUuid) == GetId("run", runUuid2) {
      GetIdInjective("run", runUuid, runUuid2);
    }
  }
}
