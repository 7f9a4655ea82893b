/** The records the SDK hands to the platform: input groups, processor
    arguments and processors, plus the helpers every caller shares. */
module Processors {
  import opened Wrappers
  import opened FunctionRefs
  import opened Dicts

  /** Keyword data of a group or a config. Values are kept as opaque text:
      the SDK only forwards them to JSON serialisation or document upload. */
  type Data = map<string, string>

  /** A config dict. It reaches the platform as `json.dumps(config)`, whose
      text follows the dict's insertion order, so the order is kept: two
      configs with the same entries in another order are different texts,
      hence different processors and pipeline hashes. */
  type ConfigData = Dict<string>

  /** The name and keyword data of a `Group(name, **data)`. */
  datatype Group = Group(name: string, data: Data)

  /** The SDK has two Group classes with the same constructor. `isinstance`
      tells them apart: `Flow.startwith` accepts only the class of
      modelling/group.py, `run` only the class of core_api/run.py (the one
      the package exports as `malevich_sdk.Group`). */
  datatype GroupClass = ModellingGroup | RunGroup

  /** A positional argument as the caller passes it: an instance of one of
      the Group classes, or a value of some other Python type, known by its
      type name. */
  datatype PositionalValue = GroupOf(cls: GroupClass, group: Group) | Other(typeName: string)

  /** A positional argument after the caller's `isinstance(group, Group)`
      test against its own Group class: accepted, or rejected under its
      type name. */
  datatype Positional = IsGroup(group: Group) | NotGroup(typeName: string)

  /** The caller whose own Group class is `accepted` takes the value. */
  predicate Accepts(accepted: GroupClass, v: PositionalValue) {
    v.GroupOf? && v.cls == accepted
  }

  /** The `isinstance` test of a caller whose Group class is `accepted`. An
      instance of the other Group class fails it; its type name is `Group`. */
  function Classify(v: PositionalValue, accepted: GroupClass): (r: Positional)
    ensures r.IsGroup? <==> Accepts(accepted, v)
    ensures r.IsGroup? ==> r.group == v.group
    ensures v.GroupOf? && r.NotGroup? ==> r.typeName == "Group"
    ensures v.Other? ==> r == NotGroup(v.typeName)
  {
    match v
    case Other(t) => NotGroup(t)
    case GroupOf(cls, g) => if cls == accepted then IsGroup(g) else NotGroup("Group")
  }

  /** Every positional argument of a call, tested in order. */
  function ClassifyAll(vs: seq<PositionalValue>, accepted: GroupClass): (r: seq<Positional>)
    ensures |r| == |vs|
    ensures forall i :: 0 <= i < |vs| ==> r[i] == Classify(vs[i], accepted)
  {
    seq(|vs|, i requires 0 <= i < |vs| => Classify(vs[i], accepted))
  }

  /** The loop over classified arguments stops at the first one the caller's
      class does not accept, and raises with `Group` as the type name when
      that argument is an instance of the other Group class. */
  lemma ClassifiedLeading(vs: seq<PositionalValue>, accepted: GroupClass)
    ensures var gs := ClassifyAll(vs, accepted);
      && (Leading(gs) == |gs| <==> forall i :: 0 <= i < |vs| ==> Accepts(accepted, vs[i]))
      && (forall i :: (0 <= i < |vs| && !Accepts(accepted, vs[i]) &&
                       (forall j :: 0 <= j < i ==> Accepts(accepted, vs[j]))) ==>
            && Leading(gs) == i
            && gs[i].typeName == (if vs[i].GroupOf? then "Group" else vs[i].typeName))
  {
    var gs := ClassifyAll(vs, accepted);
    var n := Leading(gs);
    assert n < |vs| ==> !Accepts(accepted, vs[n]);
    assert forall i :: 0 <= i < n ==> Accepts(accepted, vs[i]);
  }

  /** The `function` argument: a FunctionRef, or a text for `parse_fn`. */
  datatype FunctionSpec = Given(ref: FunctionRef) | Named(text: string)

  /** `AlternativeArgument`: read from a collection, or from the output of
      another processor of the pipeline. */
  datatype Argument = FromCollection(collectionName: string) | FromProcessor(id: string)

  /** The platform settings `base_settings` builds from the four limits. */
  datatype Settings = Settings(
    memoryLimit: Option<int>, cpuLimit: Option<int>,
    memoryRequest: Option<int>, cpuRequest: Option<int>)

  /** A processor of a pipeline. `cfg` is the config dict whose JSON text the
      SDK stores; `settings` is absent when none were given. */
  datatype Processor = Processor(
    image: FunctionRef,
    processorId: string,
    cfg: ConfigData,
    arguments: map<string, Argument>,
    settings: Option<Settings>)

  /** A function argument given as text goes through `parse_fn`. */
  function ResolveFunction(spec: FunctionSpec): (r: Result<FunctionRef>)
    ensures spec.Given? ==> r == Ok(spec.ref)
    ensures spec.Named? && r.Err? ==> r.error == InvalidReference(spec.text)
    ensures spec.Named? && r.Ok? ==>
      RendersAs(r.value, spec.text, "") || RendersAs(r.value, spec.text, "\n")
  {
    match spec
    case Given(f) => Ok(f)
    case Named(s) => ParseFn(s)
  }

  /** The TypeError raised for a positional argument that is not a Group. */
  function NotGroupError(typeName: string): Error {
    TypeError("Positional arguments must be Group instances. Got " + typeName + " instead.")
  }

  /** `config or {}`. */
  function ConfigOrEmpty(config: Option<ConfigData>): (r: ConfigData)
    ensures config.Some? ==> r == config.value
    ensures config.None? ==> r == []
  {
    if config.Some? then config.value else []
  }

  /** Python truthiness of an optional dict. */
  predicate Present(data: Option<Data>) {
    data.Some? && data.value != map[]
  }

  /** How many positional arguments precede the first one that is not a
      Group: the groups the loop counts before it raises. */
  function Leading(groups: seq<Positional>): (r: nat)
    ensures r <= |groups|
    ensures forall i :: 0 <= i < r ==> groups[i].IsGroup?
    ensures r < |groups| ==> groups[r].NotGroup?
  {
    if |groups| == 0 || groups[0].NotGroup? then 0 else 1 + Leading(groups[1..])
  }

  /** Some positional argument is a group named `k`. */
  predicate GroupNamed(groups: seq<Positional>, k: string) {
    exists i :: 0 <= i < |groups| && groups[i].IsGroup? && groups[i].group.name == k
  }

  /** A group named `k` is the first argument or among the rest. */
  lemma GroupNamedCons(groups: seq<Positional>)
    requires |groups| > 0
    ensures forall k :: GroupNamed(groups, k) <==>
      (groups[0].IsGroup? && groups[0].group.name == k) || GroupNamed(groups[1..], k)
  {
    forall k ensures GroupNamed(groups, k) <==>
      (groups[0].IsGroup? && groups[0].group.name == k) || GroupNamed(groups[1..], k)
    {
      if GroupNamed(groups[1..], k) {
        var i :| 0 <= i < |groups[1..]| && groups[1..][i].IsGroup? && groups[1..][i].group.name == k;
        assert groups[i + 1] == groups[1..][i];
      }
      if GroupNamed(groups, k) && !(groups[0].IsGroup? && groups[0].group.name == k) {
        var i :| 0 <= i < |groups| && groups[i].IsGroup? && groups[i].group.name == k;
        assert groups[1..][i - 1] == groups[i];
      }
    }
  }
}
