/** Pipeline identity and storage (`core_api/pipeline.py`). A pipeline
    without an explicit id is named by the hex SHA-256 digest of the
    key-sorted JSON of its processors; that digest is the parameter
    `digest`. A Dafny map has no insertion order, so the digest of equal
    processor maps is equal by construction. The platform's pipeline store
    is a map from pipeline id to the stored record. */
module Pipelines {
  import opened Wrappers
  import opened Processors
  import opened FunctionRefs
  import opened Operations

  /** The platform's pipeline record; `results` maps a processor key to the
      names of its results. */
  datatype CorePipeline = CorePipeline(
    pipelineId: string,
    processors: map<string, Processor>,
    results: map<string, seq<string>>)

  /** The SDK's `Pipeline` object. */
  datatype Pipeline = Pipeline(
    id: string,
    processors: map<string, Processor>,
    resultMap: Option<map<string, seq<string>>>)

  /** hex(sha256(json.dumps(processors, sort_keys=True))). */
  type Digest = map<string, Processor> -> string

  /** The platform's pipelines, by id. */
  type Store = map<string, CorePipeline>

  /** `pipeline.hash().hex()`: only the processors enter the digest. */
  function Hash(p: Pipeline, digest: Digest): string {
    digest(p.processors)
  }

  /** `Pipeline(id, processors=..., result_map=...)`: `id or hash`. */
  function NewPipeline(id: Option<string>, processors: map<string, Processor>,
                       resultMap: Option<map<string, seq<string>>>, digest: Digest): (r: Pipeline)
    ensures r.processors == processors && r.resultMap == resultMap
    ensures Truthy(id) ==> r.id == id.value
    ensures !Truthy(id) ==> r.id == digest(processors)
  {
    Pipeline(OrElse(id, digest(processors)), processors, resultMap)
  }

  /** The name of the result of processor `key`. */
  function ResultName(hash: string, key: string): string {
    hash + "_" + key
  }

  /** `as_core_pipeline`: one result per processor key, named after the
      hash; a result map the pipeline was built with plays no part. */
  function AsCore(p: Pipeline, digest: Digest): (r: CorePipeline)
    ensures r.pipelineId == p.id && r.processors == p.processors
    ensures r.results.Keys == p.processors.Keys
    ensures forall key :: key in r.results ==> r.results[key] == [ResultName(Hash(p, digest), key)]
  {
    CorePipeline(p.id, p.processors, map key | key in p.processors :: [ResultName(Hash(p, digest), key)])
  }

  /** Different processor keys get different result names. */
  lemma ResultNameInjective(hash: string, k1: string, k2: string)
    requires ResultName(hash, k1) == ResultName(hash, k2)
    ensures k1 == k2
  {
    assert k1 == ResultName(hash, k1)[|hash| + 1..];
    assert k2 == ResultName(hash, k2)[|hash| + 1..];
  }

  /** The identity of a pipeline is its processors: the id and the result
      map it was built with change neither its hash nor its results. */
  lemma HashIgnoresIdentity(id1: Option<string>, id2: Option<string>, processors: map<string, Processor>,
                            rm1: Option<map<string, seq<string>>>, rm2: Option<map<string, seq<string>>>,
                            digest: Digest)
    ensures var p1, p2 := NewPipeline(id1, processors, rm1, digest), NewPipeline(id2, processors, rm2, digest);
      && Hash(p1, digest) == Hash(p2, digest)
      && AsCore(p1, digest).results == AsCore(p2, digest).results
  {
  }

  /** The error `get` raises: the SDK wraps the already formatted message
      into the error's id, so its text reads `Pipeline Pipeline <id> not
      found not found`. */
  function NotFound(id: string): (e: Error)
    ensures e.PipelineNotFound? && NotFoundText(e) == "Pipeline Pipeline " + id + " not found not found"
  {
    PipelineNotFound("Pipeline " + id + " not found")
  }

  /** The text of a PipelineNotFoundError. */
  function NotFoundText(e: Error): string
    requires e.PipelineNotFound?
  {
    "Pipeline " + e.id + " not found"
  }

  /** `Pipeline.get(id)`: the stored record, read back with its stored id
      (or its hash, if that id is empty); any failure is PipelineNotFound. */
  function GetPipeline(store: Store, id: string, digest: Digest): (r: Result<Pipeline>)
    ensures r.Ok? <==> id in store
    ensures r.Err? ==> r.error == NotFound(id)
    ensures r.Ok? ==>
      && r.value.processors == store[id].processors
      && r.value.resultMap == Some(store[id].results)
      && (store[id].pipelineId != "" ==> r.value.id == store[id].pipelineId)
  {
    if id in store then
      var c := store[id];
      Ok(NewPipeline(Some(c.pipelineId), c.processors, Some(c.results), digest))
    else Err(NotFound(id))
  }

  /** `Pipeline.upsert(processors)`: fetch the pipeline under the hash of
      the processors; on a miss create it there and fetch it again. */
  function Upsert(store: Store, processors: map<string, Processor>, digest: Digest): (r: (Store, Result<Pipeline>))
    ensures r.1.Ok?
    ensures r.1 == GetPipeline(r.0, digest(processors), digest)
    ensures digest(processors) in store ==> r.0 == store
    ensures digest(processors) !in store ==>
      r.0 == store[digest(processors) := AsCore(NewPipeline(None, processors, None, digest), digest)]
  {
    var p := NewPipeline(None, processors, None, digest);
    match GetPipeline(store, p.id, digest)
    case Ok(found) => (store, Ok(found))
    case Err(_) =>
      var store' := store[p.id := AsCore(p, digest)];
      (store', GetPipeline(store', p.id, digest))
  }

  /** Upsert creates at most once: a second upsert of the same processors
      finds what the first left and changes nothing. */
  lemma UpsertOnce(store: Store, processors: map<string, Processor>, digest: Digest)
    ensures var (s1, p1) := Upsert(store, processors, digest);
      && Upsert(s1, processors, digest) == (s1, p1)
      && s1.Keys == store.Keys + {digest(processors)}
      && (forall id :: id in store ==> s1[id] == store[id])
  {
  }

  /** A pipeline created by upsert reads back as itself: its id is the
      hash, its processors are the given ones, and its core form is
      exactly the record stored. */
  lemma UpsertRoundTrip(store: Store, processors: map<string, Processor>, digest: Digest)
    requires digest(processors) !in store
    ensures var (s1, p1) := Upsert(store, processors, digest);
      && p1.value.id == digest(processors)
      && p1.value.processors == processors
      && AsCore(p1.value, digest) == s1[digest(processors)]
  {
    var (s1, p1) := Upsert(store, processors, digest);
    var c := s1[digest(processors)];
    assert c.pipelineId == digest(processors);
    assert AsCore(p1.value, digest).results == c.results;
  }

  /** `pipeline.operations.active()`: one operation per id the platform
      lists, in its order, none of them bound yet. */
  function Active(ids: seq<string>): (r: seq<Operation>)
    ensures |r| == |ids|
    ensures forall i :: 0 <= i < |ids| ==> r[i].id == ids[i] && r[i].pipelineId.None?
  {
    seq(|ids|, i requires 0 <= i < |ids| => Operation(ids[i], None))
  }

  /** `pipeline.operations.create(**config)`: the config is not used; an
      empty cfg is created under a fresh id and the pipeline is prepared
      with it. `prepared` is the operation id the platform answers. */
  function Create(p: Pipeline, cfgUuid: string, prepared: string): (r: (seq<Request>, Operation))
    requires IsUuidHex(cfgUuid)
    ensures |r.0| == 2 && r.0[0].CreateCfg? && r.0[0].cfg == EmptyCfg && "cfg_" <= r.0[0].cfgId
    ensures r.0[1] == Prepare(p.id, r.0[0].cfgId)
    ensures r.1 == Operation(prepared, None)
  {
    var cfgId := GetId("cfg", cfgUuid);
    ([CreateCfg(cfgId, EmptyCfg), Prepare(p.id, cfgId)], Operation(prepared, None))
  }
}
