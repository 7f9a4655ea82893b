/** The flow builder of `modelling/flow.py`: a pipeline assembled node by
    node. Each node is a processor under a flow id; the data groups a node
    starts with are stored per flow id and later uploaded as documents.
    Collection names come from one counter per group name, shared by the
    whole flow. */
module Flows {
  import opened Wrappers
  import opened Text
  import opened Dicts
  import opened FunctionRefs
  import opened Processors
  import opened Documents

  /** A group bound to the collection that will hold its data. */
  datatype FlowGroup = FlowGroup(name: string, collectionName: string, data: Data)

  /** The handle `startwith` and `add` return. */
  datatype FlowRef = FlowRef(flowId: string)

  /** An argument of `addflow`: a FlowRef, or a value of another type. */
  datatype RefArg = IsRef(ref: FlowRef) | NotRef(typeName: string)

  /** The flow: the per-name counters (a defaultdict of 0), the processors
      of the pipeline under construction, and the stored groups per flow id
      (a dict of dicts, in insertion order). */
  datatype Flow = Flow(
    idMap: map<string, nat>,
    processors: map<string, Processor>,
    groups: Dict<Dict<FlowGroup>>)

  /** `Flow()`. */
  const EmptyFlow: Flow := Flow(map[], map[], [])

  /** Reading the defaultdict. */
  function Counter(m: map<string, nat>, k: string): nat {
    if k in m then m[k] else 0
  }

  /** `f"{group}_{n}"`. */
  function CollectionName(group: string, n: nat): string {
    group + "_" + NatToString(n)
  }

  /** A counter text holds no `_`, so the last `_` of a collection name
      separates the group name from the ordinal: no two (group, ordinal)
      pairs share a collection name. */
  lemma {:induction false} CollectionNameInjective(g1: string, n1: nat, g2: string, n2: nat)
    requires CollectionName(g1, n1) == CollectionName(g2, n2)
    ensures g1 == g2 && n1 == n2
  {
    var s := CollectionName(g1, n1);
    var d1, d2 := NatToString(n1), NatToString(n2);
    assert s == g1 + (['_'] + d1) && s == g2 + (['_'] + d2);
    assert '_' !in d1 && '_' !in d2 by {
      NatToStringDigits(n1);
      NatToStringDigits(n2);
      assert forall i :: 0 <= i < |d1| ==> IsDigit(d1[i]);
      assert forall i :: 0 <= i < |d2| ==> IsDigit(d2[i]);
    }
    FindLastOf(g1, '_', d1);
    FindLastOf(g2, '_', d2);
    assert g1 == s[..|g1|] == g2;
    assert d1 == s[|g1| + 1..] == d2;
    NatToStringInjective(n1, n2);
  }

  /** How many of the positional arguments are groups named `k`. */
  function Occurrences(groups: seq<Positional>, k: string): (r: nat)
    ensures r <= |groups|
  {
    if |groups| == 0 then 0
    else (if groups[0].IsGroup? && groups[0].group.name == k then 1 else 0) + Occurrences(groups[1..], k)
  }

  lemma {:induction false} OccurrencesAppend(a: seq<Positional>, b: seq<Positional>, k: string)
    ensures Occurrences(a + b, k) == Occurrences(a, k) + Occurrences(b, k)
    decreases |a|
  {
    if |a| == 0 {
      assert a + b == b;
    } else {
      assert (a + b)[1..] == a[1..] + b;
      OccurrencesAppend(a[1..], b, k);
    }
  }

  /** The loop over the positional groups: each group name's counter goes up
      by one, and the group is numbered with the new count. A non-Group
      argument stops the loop with a TypeError, after the groups before it
      were counted. */
  function Number(idMap: map<string, nat>, groups: seq<Positional>)
    : (r: (map<string, nat>, Result<seq<(Group, nat)>>))
    ensures r.1.Ok? ==> |r.1.value| == |groups|
    decreases |groups|
  {
    if |groups| == 0 then (idMap, Ok([]))
    else
      match groups[0]
      case NotGroup(t) => (idMap, Err(NotGroupError(t)))
      case IsGroup(g) =>
        var n := Counter(idMap, g.name) + 1;
        var (idMap2, rest) := Number(idMap[g.name := n], groups[1..]);
        if rest.Err? then (idMap2, Err(rest.error))
        else (idMap2, Ok([(g, n)] + rest.value))
  }

  /** Each numbered group becomes a FlowGroup with the collection
      `<name>_<n>`. */
  function Bind(numbered: seq<(Group, nat)>): (r: seq<FlowGroup>)
    ensures |r| == |numbered|
    ensures forall i :: 0 <= i < |r| ==>
      r[i] == FlowGroup(numbered[i].0.name, CollectionName(numbered[i].0.name, numbered[i].1), numbered[i].0.data)
  {
    seq(|numbered|, i requires 0 <= i < |numbered| =>
      FlowGroup(numbered[i].0.name, CollectionName(numbered[i].0.name, numbered[i].1), numbered[i].0.data))
  }

  /** Occurrences in a prefix one longer. */
  lemma OccurrencesCons(groups: seq<Positional>, j: nat, k: string)
    requires 0 <= j < |groups|
    ensures Occurrences(groups[..j + 1], k)
      == (if groups[0].IsGroup? && groups[0].group.name == k then 1 else 0) + Occurrences(groups[1..][..j], k)
  {
    assert groups[..j + 1] == [groups[0]] + groups[1..][..j];
    OccurrencesAppend([groups[0]], groups[1..][..j], k);
  }

  /** The loop fails exactly at the first non-Group argument. */
  lemma {:induction false} NumberOutcome(idMap: map<string, nat>, groups: seq<Positional>)
    ensures var r := Number(idMap, groups);
      && (r.1.Err? <==> Leading(groups) < |groups|)
      && (r.1.Err? ==> r.1.error == NotGroupError(groups[Leading(groups)].typeName))
    decreases |groups|
  {
    if |groups| > 0 && groups[0].IsGroup? {
      var g := groups[0].group;
      NumberOutcome(idMap[g.name := Counter(idMap, g.name) + 1], groups[1..]);
    }
  }

  /** How many groups named `k` come before the first non-Group argument. */
  function Counted(groups: seq<Positional>, k: string): (r: nat)
    ensures r <= Occurrences(groups, k)
    ensures Leading(groups) == |groups| ==> r == Occurrences(groups, k)
  {
    if |groups| == 0 || groups[0].NotGroup? then 0
    else (if groups[0].group.name == k then 1 else 0) + Counted(groups[1..], k)
  }

  /** Every group before the first non-Group argument bumps its name's
      counter by one, and a name gets a key once counted. */
  lemma NumberCounts(idMap: map<string, nat>, groups: seq<Positional>)
    ensures var r := Number(idMap, groups);
      && (forall k :: Counter(r.0, k) == Counter(idMap, k) + Counted(groups, k))
      && (forall k :: k in r.0 <==> k in idMap || Counted(groups, k) > 0)
  {
    NumberCounters(idMap, groups);
    NumberKeys(idMap, groups);
  }

  lemma {:induction false} NumberCounters(idMap: map<string, nat>, groups: seq<Positional>)
    ensures forall k :: Counter(Number(idMap, groups).0, k) == Counter(idMap, k) + Counted(groups, k)
    decreases |groups|
  {
    if |groups| > 0 && groups[0].IsGroup? {
      var g := groups[0].group;
      var idMap1 := idMap[g.name := Counter(idMap, g.name) + 1];
      NumberCounters(idMap1, groups[1..]);
      NumberStep(idMap, groups);
      forall k ensures Counter(idMap1, k) + Counted(groups[1..], k) == Counter(idMap, k) + Counted(groups, k) {
        CountedStep(groups, k);
      }
    }
  }

  lemma {:induction false} NumberKeys(idMap: map<string, nat>, groups: seq<Positional>)
    ensures forall k :: k in Number(idMap, groups).0 <==> k in idMap || Counted(groups, k) > 0
    decreases |groups|
  {
    if |groups| > 0 && groups[0].IsGroup? {
      var g := groups[0].group;
      var idMap1 := idMap[g.name := Counter(idMap, g.name) + 1];
      NumberKeys(idMap1, groups[1..]);
      NumberStep(idMap, groups);
      forall k ensures (k in idMap1 || Counted(groups[1..], k) > 0) <==> (k in idMap || Counted(groups, k) > 0) {
        CountedStep(groups, k);
      }
    }
  }

  /** One round of the loop bumps the first group's counter. */
  lemma NumberStep(idMap: map<string, nat>, groups: seq<Positional>)
    requires |groups| > 0 && groups[0].IsGroup?
    ensures var g := groups[0].group;
      Number(idMap, groups).0 == Number(idMap[g.name := Counter(idMap, g.name) + 1], groups[1..]).0
  {
  }

  lemma CountedStep(groups: seq<Positional>, k: string)
    requires |groups| > 0 && groups[0].IsGroup?
    ensures Counted(groups, k) == (if groups[0].group.name == k then 1 else 0) + Counted(groups[1..], k)
  {
  }

  /** The i-th group is numbered with the count of its name over the flow
      so far, this call's groups up to it included. */
  lemma {:induction false} NumberOrdinals(idMap: map<string, nat>, groups: seq<Positional>, i: nat)
    requires Number(idMap, groups).1.Ok? && i < |groups|
    ensures groups[i].IsGroup?
    ensures var g := groups[i].group;
      Number(idMap, groups).1.value[i] == (g, Counter(idMap, g.name) + Occurrences(groups[..i + 1], g.name))
    decreases |groups|
  {
    var g := groups[0].group;
    var idMap1 := idMap[g.name := Counter(idMap, g.name) + 1];
    if i == 0 {
      assert groups[..1] == [groups[0]];
      assert Occurrences(groups[..1], g.name) == 1;
    } else {
      NumberOrdinals(idMap1, groups[1..], i - 1);
      assert groups[1..][i - 1] == groups[i];
      assert groups[1..][..i - 1 + 1] == groups[1..][..i];
      OccurrencesCons(groups, i, groups[i].group.name);
    }
  }

  /** Occurrences add up over a split, and none are counted past the last. */
  lemma OccurrencesUpToLast(groups: seq<Positional>, i: nat, k: string)
    requires i < |groups|
    requires forall j :: i < j < |groups| ==> !(groups[j].IsGroup? && groups[j].group.name == k)
    ensures Occurrences(groups[..i + 1], k) == Occurrences(groups, k)
  {
    assert groups == groups[..i + 1] + groups[i + 1..];
    OccurrencesAppend(groups[..i + 1], groups[i + 1..], k);
    OccurrencesNone(groups[i + 1..], k);
  }

  lemma {:induction false} OccurrencesNone(groups: seq<Positional>, k: string)
    requires forall j :: 0 <= j < |groups| ==> !(groups[j].IsGroup? && groups[j].group.name == k)
    ensures Occurrences(groups, k) == 0
    decreases |groups|
  {
    if |groups| > 0 {
      OccurrencesNone(groups[1..], k);
    }
  }

  /** `s[i]` is the last group named `k`. */
  predicate IsLast(s: seq<FlowGroup>, i: nat, k: string)
    requires i < |s|
  {
    s[i].name == k && forall j :: i < j < |s| ==> s[j].name != k
  }

  /** The last group named `k`: the one a dict keyed by name keeps when the
      groups are written in order. */
  function LastNamed(s: seq<FlowGroup>, k: string): (r: Option<FlowGroup>)
    ensures r.None? <==> forall i :: 0 <= i < |s| ==> s[i].name != k
    ensures r.Some? ==> exists i :: 0 <= i < |s| && s[i] == r.value && IsLast(s, i, k)
    decreases |s|
  {
    if |s| == 0 then None
    else
      var t := LastNamed(s[1..], k);
      if t.Some? then
        var i :| 0 <= i < |s[1..]| && s[1..][i] == t.value && IsLast(s[1..], i, k);
        assert s[i + 1] == t.value && IsLast(s, i + 1, k);
        t
      else if s[0].name == k then Some(s[0])
      else None
  }

  /** The position of the last group named `k`. */
  lemma LastNamedAt(s: seq<FlowGroup>, k: string) returns (i: nat)
    requires LastNamed(s, k).Some?
    ensures i < |s| && s[i] == LastNamed(s, k).value && IsLast(s, i, k)
  {
    i :| 0 <= i < |s| && s[i] == LastNamed(s, k).value && IsLast(s, i, k);
  }

  /** `for g in s: d[g.name] = g`. */
  function StoreAll(d: Dict<FlowGroup>, s: seq<FlowGroup>): (r: Dict<FlowGroup>)
    ensures forall k :: Get(r, k) == if LastNamed(s, k).Some? then LastNamed(s, k) else Get(d, k)
    decreases |s|
  {
    if |s| == 0 then d
    else StoreAll(Put(d, s[0].name, s[0]), s[1..])
  }

  /** The names of the groups. */
  function Names(s: seq<FlowGroup>): set<string> {
    set i | 0 <= i < |s| :: s[i].name
  }

  /** `{g.name: AlternativeArgument(collectionName=g.collection_name) for g in s}`. */
  function Arguments(s: seq<FlowGroup>): (r: map<string, Argument>)
    ensures r.Keys == Names(s)
    ensures forall k :: k in r ==> LastNamed(s, k).Some? && r[k] == FromCollection(LastNamed(s, k).value.collectionName)
  {
    map k | k in Names(s) :: FromCollection(LastNamed(s, k).value.collectionName)
  }

  /** The collection of the data group: `__input__` and the current
      `__input__` counter, with no separator. */
  function InputCollection(n: nat): string {
    "__input__" + NatToString(n)
  }

  function AlreadyExists(name: string): Error {
    ValueError("\"" + name + "\" already exists in the flow")
  }

  /** The groups of a `startwith` node in order: the positional groups,
      then the data group; and the counters afterwards. Reading the
      `__input__` counter of the defaultdict inserts it with 0. */
  function NodeGroups(idMap: map<string, nat>, groups: seq<Positional>, data: Option<Data>)
    : (r: (map<string, nat>, Result<seq<FlowGroup>>))
    ensures r.1.Ok? ==> |r.1.value| == |groups| + (if Present(data) then 1 else 0)
  {
    var (idMap1, numbered) := Number(idMap, groups);
    if numbered.Err? then (idMap1, Err(numbered.error))
    else
      var n := Counter(idMap1, "__input__");
      if Present(data) then
        (idMap1["__input__" := n], Ok(Bind(numbered.value) + [FlowGroup("__input__", InputCollection(n), data.value)]))
      else (idMap1, Ok(Bind(numbered.value)))
  }

  /** After a successful loop every counter went up by its name's
      occurrences; a data group adds the `__input__` key. */
  lemma NodeGroupsCounts(idMap: map<string, nat>, groups: seq<Positional>, data: Option<Data>)
    requires NodeGroups(idMap, groups, data).1.Ok?
    ensures var idMap2 := NodeGroups(idMap, groups, data).0;
      && (forall k :: Counter(idMap2, k) == Counter(idMap, k) + Occurrences(groups, k))
      && (forall k :: k in idMap2 <==> k in idMap || Occurrences(groups, k) > 0 || (k == "__input__" && Present(data)))
  {
    NumberOutcome(idMap, groups);
    NumberCounts(idMap, groups);
    assert Leading(groups) == |groups|;
  }

  /** A successful loop numbered every positional argument: the i-th group
      reads `<name>_<n>`, n counting its name up to it; the data group, if
      any, comes last. */
  lemma NodeGroupsShape(idMap: map<string, nat>, groups: seq<Positional>, data: Option<Data>)
    requires NodeGroups(idMap, groups, data).1.Ok?
    ensures var idMap2, all := NodeGroups(idMap, groups, data).0, NodeGroups(idMap, groups, data).1.value;
      && (forall i :: 0 <= i < |groups| ==> groups[i].IsGroup? && all[i] == FlowGroup(groups[i].group.name,
            CollectionName(groups[i].group.name, Counter(idMap, groups[i].group.name) + Occurrences(groups[..i + 1], groups[i].group.name)),
            groups[i].group.data))
      && (Present(data) ==>
            all[|groups|] == FlowGroup("__input__", InputCollection(Counter(idMap2, "__input__")), data.value))
  {
    var (idMap1, numbered) := Number(idMap, groups);
    forall i | 0 <= i < |groups|
      ensures groups[i].IsGroup? && numbered.value[i]
        == (groups[i].group, Counter(idMap, groups[i].group.name) + Occurrences(groups[..i + 1], groups[i].group.name))
    {
      NumberOrdinals(idMap, groups, i);
    }
  }

  /** The node's groups are the positional groups and, for non-empty data,
      `__input__`. */
  lemma NodeGroupsNames(idMap: map<string, nat>, groups: seq<Positional>, data: Option<Data>, k: string)
    requires NodeGroups(idMap, groups, data).1.Ok?
    ensures LastNamed(NodeGroups(idMap, groups, data).1.value, k).Some?
      <==> GroupNamed(groups, k) || (k == "__input__" && Present(data))
  {
    var all := NodeGroups(idMap, groups, data).1.value;
    NodeGroupsShape(idMap, groups, data);
    if GroupNamed(groups, k) {
      var i :| 0 <= i < |groups| && groups[i].IsGroup? && groups[i].group.name == k;
      assert all[i].name == k;
    } else if k == "__input__" && Present(data) {
      assert all[|groups|].name == k;
    } else {
      forall i | 0 <= i < |all| ensures all[i].name != k {
      }
    }
  }

  /** The last group of each positional name reads the collection
      `<name>_<count of name afterwards>`, unless the data group, which
      comes last, takes the name `__input__`. */
  lemma {:induction false} NodeGroupsCollection(idMap: map<string, nat>, groups: seq<Positional>, data: Option<Data>, k: string)
    requires NodeGroups(idMap, groups, data).1.Ok?
    requires GroupNamed(groups, k) && !(k == "__input__" && Present(data))
    ensures var idMap2, all := NodeGroups(idMap, groups, data).0, NodeGroups(idMap, groups, data).1.value;
      LastNamed(all, k).Some? && LastNamed(all, k).value.collectionName == CollectionName(k, Counter(idMap2, k))
  {
    var all := NodeGroups(idMap, groups, data).1.value;
    NodeGroupsNames(idMap, groups, data, k);
    var i := LastNamedAt(all, k);
    LastIsPositional(idMap, groups, data, k, i);
    OccurrencesUpToLast(groups, i, k);
    NodeGroupsCount(idMap, groups, data, k);
    var n := Counter(idMap, k) + Occurrences(groups, k);
    assert all[i].collectionName == CollectionName(k, n);
    assert Counter(NodeGroups(idMap, groups, data).0, k) == n;
  }

  /** NodeGroupsCounts for one name. */
  lemma NodeGroupsCount(idMap: map<string, nat>, groups: seq<Positional>, data: Option<Data>, k: string)
    requires NodeGroups(idMap, groups, data).1.Ok?
    ensures Counter(NodeGroups(idMap, groups, data).0, k) == Counter(idMap, k) + Occurrences(groups, k)
  {
    NodeGroupsCounts(idMap, groups, data);
  }

  /** The last group named `k`, when `k` is not the data group's name, is
      a positional one and reads the count of `k` up to it. */
  lemma LastIsPositional(idMap: map<string, nat>, groups: seq<Positional>, data: Option<Data>, k: string, i: nat)
    requires NodeGroups(idMap, groups, data).1.Ok?
    requires !(k == "__input__" && Present(data))
    requires i < |NodeGroups(idMap, groups, data).1.value| && IsLast(NodeGroups(idMap, groups, data).1.value, i, k)
    ensures i < |groups| && groups[i].IsGroup? && groups[i].group.name == k
    ensures NodeGroups(idMap, groups, data).1.value[i].collectionName
      == CollectionName(k, Counter(idMap, k) + Occurrences(groups[..i + 1], k))
    ensures forall j :: i < j < |groups| ==> !(groups[j].IsGroup? && groups[j].group.name == k)
  {
    var all := NodeGroups(idMap, groups, data).1.value;
    NodeGroupsShape(idMap, groups, data);
    forall j | i < j < |groups| ensures !(groups[j].IsGroup? && groups[j].group.name == k) {
      assert all[j].name != k;
    }
  }

  /** The data group comes last and reads `__input__<count of __input__>`. */
  lemma NodeGroupsInput(idMap: map<string, nat>, groups: seq<Positional>, data: Option<Data>)
    requires NodeGroups(idMap, groups, data).1.Ok? && Present(data)
    ensures var idMap2, all := NodeGroups(idMap, groups, data).0, NodeGroups(idMap, groups, data).1.value;
      LastNamed(all, "__input__") == Some(FlowGroup("__input__", InputCollection(Counter(idMap2, "__input__")), data.value))
  {
    var all := NodeGroups(idMap, groups, data).1.value;
    NodeGroupsShape(idMap, groups, data);
    assert IsLast(all, |groups|, "__input__");
  }

  /** `startwith`: the node `name` runs `fn` on the given groups and,
      when `data` is a non-empty dict, on a data group `__input__`. */
  function StartWith(flow: Flow, name: string, groups: seq<Positional>, fn: FunctionSpec,
                     config: Option<ConfigData>, data: Option<Data>, settings: Settings)
    : (r: (Flow, Result<FlowRef>))
    ensures ResolveFunction(fn).Err? ==> r == (flow, Err(ResolveFunction(fn).error))
    ensures ResolveFunction(fn).Ok? && "name" in flow.idMap ==> r == (flow, Err(AlreadyExists(name)))
    ensures r.1.Ok? ==> r.1.value == FlowRef(name)
    ensures ResolveFunction(fn).Ok? && "name" !in flow.idMap ==> r.0.idMap == NodeGroups(flow.idMap, groups, data).0
  {
    match ResolveFunction(fn)
    case Err(e) => (flow, Err(e))
    case Ok(fref) =>
      if "name" in flow.idMap then (flow, Err(AlreadyExists(name)))
      else
        var (idMap2, mapped) := NodeGroups(flow.idMap, groups, data);
        if mapped.Err? then (flow.(idMap := idMap2), Err(mapped.error))
        else
          var all := mapped.value;
          var p := Processor(fref, fref.processorId, ConfigOrEmpty(config), Arguments(all), Some(settings));
          (Flow(idMap2, flow.processors[name := p], StoreNode(flow.groups, name, all)), Ok(FlowRef(name)))
  }

  /** `add`: the node `name` runs `fn` with no arguments yet. */
  function Add(flow: Flow, name: string, fn: FunctionSpec, config: Option<ConfigData>, settings: Settings)
    : (r: (Flow, Result<FlowRef>))
    ensures ResolveFunction(fn).Err? ==> r == (flow, Err(ResolveFunction(fn).error))
    ensures ResolveFunction(fn).Ok? && "name" in flow.idMap ==> r == (flow, Err(AlreadyExists(name)))
    ensures r.1.Ok? <==> ResolveFunction(fn).Ok? && "name" !in flow.idMap
    ensures r.1.Ok? ==>
      && r.1.value == FlowRef(name)
      && r.0.idMap == flow.idMap && r.0.groups == flow.groups
      && name in r.0.processors && r.0.processors == flow.processors[name := r.0.processors[name]]
      && r.0.processors[name].image == ResolveFunction(fn).value
      && r.0.processors[name].processorId == ResolveFunction(fn).value.processorId
      && r.0.processors[name].cfg == ConfigOrEmpty(config)
      && r.0.processors[name].arguments == map[]
  {
    match ResolveFunction(fn)
    case Err(e) => (flow, Err(e))
    case Ok(fref) =>
      if "name" in flow.idMap then (flow, Err(AlreadyExists(name)))
      else
        var p := Processor(fref, fref.processorId, ConfigOrEmpty(config), map[], Some(settings));
        (flow.(processors := flow.processors[name := p]), Ok(FlowRef(name)))
  }

  /** `startwith` checks, in order: the reference text parses, the literal
      key `'name'` is not a counter (whatever node name is given), every
      positional argument is a Group. A TypeError leaves the counters of
      the groups before the bad argument bumped and changes nothing else. */
  lemma StartWithOutcome(flow: Flow, name: string, groups: seq<Positional>, fn: FunctionSpec,
                         config: Option<ConfigData>, data: Option<Data>, settings: Settings)
    ensures var r := StartWith(flow, name, groups, fn, config, data, settings);
      && (r.1.Ok? <==> ResolveFunction(fn).Ok? && "name" !in flow.idMap && Leading(groups) == |groups|)
      && (ResolveFunction(fn).Ok? && "name" !in flow.idMap && Leading(groups) < |groups| ==>
            && r.1 == Err(NotGroupError(groups[Leading(groups)].typeName))
            && r.0.processors == flow.processors && r.0.groups == flow.groups
            && (forall k :: Counter(r.0.idMap, k) == Counter(flow.idMap, k) + Counted(groups, k))
            && (forall k :: k in r.0.idMap <==> k in flow.idMap || Counted(groups, k) > 0))
  {
    NumberOutcome(flow.idMap, groups);
    NumberCounts(flow.idMap, groups);
  }

  /** `startwith` tests its positional arguments against the Group class
      of modelling/group.py: it runs only when every argument is an instance
      of that class, and an instance of the Group class `run` takes raises
      the TypeError naming `Group`. */
  lemma StartWithForeignGroup(flow: Flow, name: string, vs: seq<PositionalValue>, fn: FunctionSpec,
                              config: Option<ConfigData>, data: Option<Data>, settings: Settings)
    requires ResolveFunction(fn).Ok? && "name" !in flow.idMap
    ensures var r := StartWith(flow, name, ClassifyAll(vs, ModellingGroup), fn, config, data, settings);
      && (r.1.Ok? <==> forall i :: 0 <= i < |vs| ==> Accepts(ModellingGroup, vs[i]))
      && (forall i :: (0 <= i < |vs| && vs[i].GroupOf? && vs[i].cls == RunGroup &&
                       (forall j :: 0 <= j < i ==> Accepts(ModellingGroup, vs[j]))) ==>
            r.1 == Err(NotGroupError("Group")))
  {
    StartWithOutcome(flow, name, ClassifyAll(vs, ModellingGroup), fn, config, data, settings);
    ClassifiedLeading(vs, ModellingGroup);
  }

  /** A successful `startwith` bumps each group name's counter by its
      occurrences among the positional groups; only data adds the key
      `__input__` without counting it. */
  lemma StartWithCounters(flow: Flow, name: string, groups: seq<Positional>, fn: FunctionSpec,
                          config: Option<ConfigData>, data: Option<Data>, settings: Settings)
    requires StartWith(flow, name, groups, fn, config, data, settings).1.Ok?
    ensures var f := StartWith(flow, name, groups, fn, config, data, settings).0;
      && (forall k :: Counter(f.idMap, k) == Counter(flow.idMap, k) + Occurrences(groups, k))
      && (forall k :: k in f.idMap <==> k in flow.idMap || Occurrences(groups, k) > 0 || (k == "__input__" && Present(data)))
  {
    NodeGroupsCounts(flow.idMap, groups, data);
  }

  /** A successful `startwith` puts one processor under the node name,
      replacing any earlier one: it runs the resolved function with
      `config or {}`, and its arguments are exactly the group names, plus
      `__input__` for non-empty data. No other node changes. */
  lemma StartWithNode(flow: Flow, name: string, groups: seq<Positional>, fn: FunctionSpec,
                      config: Option<ConfigData>, data: Option<Data>, settings: Settings)
    requires StartWith(flow, name, groups, fn, config, data, settings).1.Ok?
    ensures var f := StartWith(flow, name, groups, fn, config, data, settings).0;
      && name in f.processors
      && f.processors == flow.processors[name := f.processors[name]]
      && f.processors[name].image == ResolveFunction(fn).value
      && f.processors[name].processorId == ResolveFunction(fn).value.processorId
      && f.processors[name].cfg == ConfigOrEmpty(config)
      && f.processors[name].settings == Some(settings)
      && (forall k :: k in f.processors[name].arguments <==> GroupNamed(groups, k) || (k == "__input__" && Present(data)))
  {
    var all := NodeGroups(flow.idMap, groups, data).1.value;
    forall k ensures k in Names(all) <==> GroupNamed(groups, k) || (k == "__input__" && Present(data)) {
      NodeGroupsNames(flow.idMap, groups, data, k);
    }
  }

  /** Each positional group name reads the collection `<name>_<n>`, n being
      its counter after the call: the last group of a repeated name wins.
      Non-empty data reads `__input__<n>`, n being the `__input__` counter,
      which the data group itself does not bump. */
  lemma StartWithCollections(flow: Flow, name: string, groups: seq<Positional>, fn: FunctionSpec,
                             config: Option<ConfigData>, data: Option<Data>, settings: Settings)
    requires StartWith(flow, name, groups, fn, config, data, settings).1.Ok?
    ensures var f := StartWith(flow, name, groups, fn, config, data, settings).0;
      var args := f.processors[name].arguments;
      && (forall k :: GroupNamed(groups, k) && !(k == "__input__" && Present(data)) ==>
            k in args && args[k] == FromCollection(CollectionName(k, Counter(f.idMap, k))))
      && (Present(data) ==>
            "__input__" in args && args["__input__"] == FromCollection(InputCollection(Counter(f.idMap, "__input__"))))
  {
    forall k | GroupNamed(groups, k) && !(k == "__input__" && Present(data)) {
      StartWithCollection(flow, name, groups, fn, config, data, settings, k);
    }
    if Present(data) {
      StartWithInput(flow, name, groups, fn, config, data, settings);
    }
  }

  /** StartWithCollections for one group name. */
  lemma StartWithCollection(flow: Flow, name: string, groups: seq<Positional>, fn: FunctionSpec,
                            config: Option<ConfigData>, data: Option<Data>, settings: Settings, k: string)
    requires StartWith(flow, name, groups, fn, config, data, settings).1.Ok?
    requires GroupNamed(groups, k) && !(k == "__input__" && Present(data))
    ensures var f := StartWith(flow, name, groups, fn, config, data, settings).0;
      name in f.processors && k in f.processors[name].arguments
      && f.processors[name].arguments[k] == FromCollection(CollectionName(k, Counter(f.idMap, k)))
  {
    StartWithParts(flow, name, groups, fn, config, data, settings);
    NodeGroupsCollection(flow.idMap, groups, data, k);
  }

  /** StartWithCollections for the data group. */
  lemma StartWithInput(flow: Flow, name: string, groups: seq<Positional>, fn: FunctionSpec,
                       config: Option<ConfigData>, data: Option<Data>, settings: Settings)
    requires StartWith(flow, name, groups, fn, config, data, settings).1.Ok? && Present(data)
    ensures var f := StartWith(flow, name, groups, fn, config, data, settings).0;
      name in f.processors && "__input__" in f.processors[name].arguments
      && f.processors[name].arguments["__input__"] == FromCollection(InputCollection(Counter(f.idMap, "__input__")))
  {
    StartWithParts(flow, name, groups, fn, config, data, settings);
    NodeGroupsInput(flow.idMap, groups, data);
  }

  /** A successful `startwith` leaves the counters of the loop and gives
      the node the arguments of its groups. */
  lemma StartWithParts(flow: Flow, name: string, groups: seq<Positional>, fn: FunctionSpec,
                       config: Option<ConfigData>, data: Option<Data>, settings: Settings)
    requires StartWith(flow, name, groups, fn, config, data, settings).1.Ok?
    ensures NodeGroups(flow.idMap, groups, data).1.Ok?
    ensures var f := StartWith(flow, name, groups, fn, config, data, settings).0;
      && f.idMap == NodeGroups(flow.idMap, groups, data).0
      && name in f.processors
      && f.processors[name].arguments == Arguments(NodeGroups(flow.idMap, groups, data).1.value)
  {
  }

  /** The groups of a successful `startwith` are stored under the node
      name, each under its own name and with the collection the processor
      reads; groups stored earlier under the node name stay unless a new
      group takes their name, and other nodes keep theirs. */
  lemma StartWithStores(flow: Flow, name: string, groups: seq<Positional>, fn: FunctionSpec,
                        config: Option<ConfigData>, data: Option<Data>, settings: Settings)
    requires StartWith(flow, name, groups, fn, config, data, settings).1.Ok?
    ensures var f := StartWith(flow, name, groups, fn, config, data, settings).0;
      var args := f.processors[name].arguments;
      var before, after := Get(flow.groups, name).GetOr([]), Get(f.groups, name).GetOr([]);
      && (forall id :: id != name ==> Get(f.groups, id) == Get(flow.groups, id))
      && (forall k :: k in args ==> Get(after, k).Some? && args[k] == FromCollection(Get(after, k).value.collectionName))
      && (forall k :: k !in args ==> Get(after, k) == Get(before, k))
  {
    StoreNodeAgrees(flow.groups, name, NodeGroups(flow.idMap, groups, data).1.value);
  }

  /** The stored groups after writing a node's groups. */
  function StoreNode(stored: Dict<Dict<FlowGroup>>, name: string, all: seq<FlowGroup>): Dict<Dict<FlowGroup>> {
    if |all| == 0 then stored
    else Put(stored, name, StoreAll(Get(stored, name).GetOr([]), all))
  }

  lemma StoreNodeAgrees(stored: Dict<Dict<FlowGroup>>, name: string, all: seq<FlowGroup>)
    ensures var args := Arguments(all);
      var before, after := Get(stored, name).GetOr([]), Get(StoreNode(stored, name, all), name).GetOr([]);
      && (forall id :: id != name ==> Get(StoreNode(stored, name, all), id) == Get(stored, id))
      && (forall k :: k in args ==> Get(after, k).Some? && args[k] == FromCollection(Get(after, k).value.collectionName))
      && (forall k :: k !in args ==> Get(after, k) == Get(before, k))
  {
    if |all| == 0 {
      assert Names(all) == {};
    }
  }


  /** No `startwith` lowers a counter, whatever its outcome. */
  lemma StartWithCountersGrow(flow: Flow, name: string, groups: seq<Positional>, fn: FunctionSpec,
                              config: Option<ConfigData>, data: Option<Data>, settings: Settings)
    ensures var f := StartWith(flow, name, groups, fn, config, data, settings).0;
      forall k :: Counter(f.idMap, k) >= Counter(flow.idMap, k)
  {
    StartWithOutcome(flow, name, groups, fn, config, data, settings);
    if StartWith(flow, name, groups, fn, config, data, settings).1.Ok? {
      StartWithCounters(flow, name, groups, fn, config, data, settings);
    }
  }

  /** Collection names never repeat for a group name: a later `startwith`
      (after any steps that did not lower the counters) binds a positional
      group name to a different collection than an earlier one did. */
  lemma CollectionsNeverRepeat(
    flow: Flow, name: string, groups: seq<Positional>, fn: FunctionSpec,
    config: Option<ConfigData>, data: Option<Data>, settings: Settings,
    later: Flow, name2: string, groups2: seq<Positional>, fn2: FunctionSpec,
    config2: Option<ConfigData>, data2: Option<Data>, settings2: Settings, k: string)
    requires StartWith(flow, name, groups, fn, config, data, settings).1.Ok?
    requires forall j :: Counter(later.idMap, j) >= Counter(StartWith(flow, name, groups, fn, config, data, settings).0.idMap, j)
    requires StartWith(later, name2, groups2, fn2, config2, data2, settings2).1.Ok?
    requires GroupNamed(groups, k) && !(k == "__input__" && Present(data))
    requires GroupNamed(groups2, k) && !(k == "__input__" && Present(data2))
    ensures var p1 := StartWith(flow, name, groups, fn, config, data, settings).0.processors;
      var p2 := StartWith(later, name2, groups2, fn2, config2, data2, settings2).0.processors;
      && name in p1 && k in p1[name].arguments
      && name2 in p2 && k in p2[name2].arguments
      && p1[name].arguments[k] != p2[name2].arguments[k]
  {
    var f1 := StartWith(flow, name, groups, fn, config, data, settings).0;
    var f2 := StartWith(later, name2, groups2, fn2, config2, data2, settings2).0;
    StartWithNode(flow, name, groups, fn, config, data, settings);
    StartWithNode(later, name2, groups2, fn2, config2, data2, settings2);
    StartWithCollections(flow, name, groups, fn, config, data, settings);
    StartWithCollections(later, name2, groups2, fn2, config2, data2, settings2);
    StartWithCounters(later, name2, groups2, fn2, config2, data2, settings2);
    NamedOccurs(groups2, k);
    CollectionNamesDiffer(k, Counter(f1.idMap, k), Counter(f2.idMap, k));
  }

  /** A named group is counted at least once. */
  lemma NamedOccurs(groups: seq<Positional>, k: string)
    requires GroupNamed(groups, k)
    ensures Occurrences(groups, k) > 0
  {
    var i :| 0 <= i < |groups| && groups[i].IsGroup? && groups[i].group.name == k;
    assert groups == groups[..i] + [groups[i]] + groups[i + 1..];
    OccurrencesAppend(groups[..i] + [groups[i]], groups[i + 1..], k);
    OccurrencesAppend(groups[..i], [groups[i]], k);
  }

  lemma CollectionNamesDiffer(k: string, m: nat, n: nat)
    requires m < n
    ensures CollectionName(k, m) != CollectionName(k, n)
  {
    if CollectionName(k, m) == CollectionName(k, n) {
      CollectionNameInjective(k, m, k, n);
    }
  }

  /** The data group does not bump the `__input__` counter: two nodes
      started with data and without positional `__input__` groups read the
      same collection `__input__<n>`. */
  lemma InputCollectionRepeats(
    flow: Flow, name: string, groups: seq<Positional>, fn: FunctionSpec,
    config: Option<ConfigData>, data: Option<Data>, settings: Settings,
    name2: string, groups2: seq<Positional>, fn2: FunctionSpec,
    config2: Option<ConfigData>, data2: Option<Data>, settings2: Settings)
    requires StartWith(flow, name, groups, fn, config, data, settings).1.Ok?
    requires StartWith(StartWith(flow, name, groups, fn, config, data, settings).0,
                       name2, groups2, fn2, config2, data2, settings2).1.Ok?
    requires Present(data) && Present(data2) && !GroupNamed(groups, "__input__") && !GroupNamed(groups2, "__input__")
    ensures var f1 := StartWith(flow, name, groups, fn, config, data, settings).0;
      var f2 := StartWith(f1, name2, groups2, fn2, config2, data2, settings2).0;
      && name in f1.processors && "__input__" in f1.processors[name].arguments
      && name2 in f2.processors && "__input__" in f2.processors[name2].arguments
      && f1.processors[name].arguments["__input__"] == FromCollection(InputCollection(Counter(flow.idMap, "__input__")))
      && f2.processors[name2].arguments["__input__"] == f1.processors[name].arguments["__input__"]
  {
    var f1 := StartWith(flow, name, groups, fn, config, data, settings).0;
    InputCollectionOf(flow, name, groups, fn, config, data, settings);
    InputCollectionOf(f1, name2, groups2, fn2, config2, data2, settings2);
  }

  /** Without a positional `__input__` group, data reads `__input__<n>` for
      the current counter n and leaves that counter as it was. */
  lemma InputCollectionOf(flow: Flow, name: string, groups: seq<Positional>, fn: FunctionSpec,
                          config: Option<ConfigData>, data: Option<Data>, settings: Settings)
    requires StartWith(flow, name, groups, fn, config, data, settings).1.Ok?
    requires Present(data) && !GroupNamed(groups, "__input__")
    ensures var f := StartWith(flow, name, groups, fn, config, data, settings).0;
      && Counter(f.idMap, "__input__") == Counter(flow.idMap, "__input__")
      && name in f.processors && "__input__" in f.processors[name].arguments
      && f.processors[name].arguments["__input__"] == FromCollection(InputCollection(Counter(flow.idMap, "__input__")))
  {
    StartWithNode(flow, name, groups, fn, config, data, settings);
    StartWithCollections(flow, name, groups, fn, config, data, settings);
    StartWithCounters(flow, name, groups, fn, config, data, settings);
    OccurrencesNone(groups, "__input__");
  }

  /** The duplicate guard tests the literal key `'name'` of the counters:
      once a group called `name` was counted, every later `startwith` and
      `add` fails, whatever node name it is given. */
  lemma NameGroupLocksFlow(flow: Flow, name: string, groups: seq<Positional>, fn: FunctionSpec,
                           config: Option<ConfigData>, data: Option<Data>, settings: Settings)
    requires ResolveFunction(fn).Ok? && "name" !in flow.idMap && Counted(groups, "name") > 0
    ensures var f := StartWith(flow, name, groups, fn, config, data, settings).0;
      && "name" in f.idMap
      && (forall name2, fn2, config2, settings2 :: ResolveFunction(fn2).Ok? ==>
            Add(f, name2, fn2, config2, settings2) == (f, Err(AlreadyExists(name2))))
      && (forall name2, groups2, fn2, config2, data2, settings2 :: ResolveFunction(fn2).Ok? ==>
            StartWith(f, name2, groups2, fn2, config2, data2, settings2) == (f, Err(AlreadyExists(name2))))
  {
    NameCounted(flow, name, groups, fn, config, data, settings);
    Locked(StartWith(flow, name, groups, fn, config, data, settings).0);
  }

  /** A group called `name` puts the key `'name'` among the counters,
      whether or not the call succeeds. */
  lemma NameCounted(flow: Flow, name: string, groups: seq<Positional>, fn: FunctionSpec,
                    config: Option<ConfigData>, data: Option<Data>, settings: Settings)
    requires ResolveFunction(fn).Ok? && "name" !in flow.idMap && Counted(groups, "name") > 0
    ensures "name" in StartWith(flow, name, groups, fn, config, data, settings).0.idMap
  {
    var idMap2 := NodeGroups(flow.idMap, groups, data).0;
    assert StartWith(flow, name, groups, fn, config, data, settings).0.idMap == idMap2;
    NodeGroupsKeys(flow.idMap, groups, data);
    assert "name" in idMap2;
  }

  /** The counters after the loop keep every earlier key and gain every
      name counted, whether or not the loop reached its end. */
  lemma NodeGroupsKeys(idMap: map<string, nat>, groups: seq<Positional>, data: Option<Data>)
    ensures forall k :: k in idMap || Counted(groups, k) > 0 ==> k in NodeGroups(idMap, groups, data).0
  {
    NumberCounts(idMap, groups);
  }

  /** With the key `'name'` among the counters, `add` and `startwith`
      refuse every node name. */
  lemma Locked(f: Flow)
    requires "name" in f.idMap
    ensures forall name2, fn2, config2, settings2 :: ResolveFunction(fn2).Ok? ==>
      Add(f, name2, fn2, config2, settings2) == (f, Err(AlreadyExists(name2)))
    ensures forall name2, groups2, fn2, config2, data2, settings2 :: ResolveFunction(fn2).Ok? ==>
      StartWith(f, name2, groups2, fn2, config2, data2, settings2) == (f, Err(AlreadyExists(name2)))
  {
  }

  /** A node name already in use is not refused: the new processor silently
      takes the place of the old one. */
  lemma RepeatedNameReplaces(flow: Flow, name: string, groups: seq<Positional>, fn: FunctionSpec,
                             config: Option<ConfigData>, data: Option<Data>, settings: Settings)
    requires name in flow.processors
    requires ResolveFunction(fn).Ok? && "name" !in flow.idMap && Leading(groups) == |groups|
    ensures var r := StartWith(flow, name, groups, fn, config, data, settings);
      && r.1 == Ok(FlowRef(name))
      && r.0.processors.Keys == flow.processors.Keys
      && r.0.processors[name].image == ResolveFunction(fn).value
  {
    StartWithSucceeds(flow, name, groups, fn, config, data, settings);
    StartWithNode(flow, name, groups, fn, config, data, settings);
  }

  /** With a resolving function, no `'name'` counter and only groups,
      `startwith` succeeds. */
  lemma StartWithSucceeds(flow: Flow, name: string, groups: seq<Positional>, fn: FunctionSpec,
                          config: Option<ConfigData>, data: Option<Data>, settings: Settings)
    requires ResolveFunction(fn).Ok? && "name" !in flow.idMap && Leading(groups) == |groups|
    ensures StartWith(flow, name, groups, fn, config, data, settings).1 == Ok(FlowRef(name))
  {
    StartWithOutcome(flow, name, groups, fn, config, data, settings);
  }

  /** The node `id` has a stored group named `to`. */
  predicate HasGroup(flow: Flow, id: string, to: string) {
    Get(flow.groups, id).Some? && Get(Get(flow.groups, id).value, to).Some?
  }

  /** Reading `groups[id]` of the defaultdict: a missing node gets an
      empty dict of groups, appended at the end. */
  function Touch(groups: Dict<Dict<FlowGroup>>, id: string): (r: Dict<Dict<FlowGroup>>)
    ensures Get(r, id) == Some(Get(groups, id).GetOr([]))
    ensures forall other :: other != id ==> Get(r, other) == Get(groups, other)
    ensures Get(groups, id).Some? ==> r == groups
  {
    if Get(groups, id).Some? then groups else Put(groups, id, [])
  }

  /** The `TypeError` of `addflow` when parameter `param` is not a FlowRef. */
  function NotFlowRefError(param: string, typeName: string): Error {
    TypeError("`addflow` argument `" + param + "` must be a FlowRef instance. Got " + typeName + " instead.")
  }

  /** The `ValueError` of `addflow` when `to` is already bound on `id`;
      `what` is "a group" or "an argument". */
  function AlreadySetError(id: string, what: string, to: string): Error {
    ValueError("`For processor " + id + " there is already " + what + " set for " + to + ". ")
  }

  /** `addflow`: the processor behind `into` reads its argument `to` from
      the output of the processor behind `from`. Once both arguments are
      FlowRefs, the group lookup gives the node `into` an empty group dict
      if it had none, whatever happens next. */
  function AddFlow(flow: Flow, from: RefArg, to: string, into: RefArg): (r: (Flow, Result<()>))
    ensures from.NotRef? || into.NotRef? ==> r.0 == flow
    ensures from.NotRef? ==> r.1 == Err(NotFlowRefError("from_", from.typeName))
    ensures from.IsRef? && into.NotRef? ==> r.1 == Err(NotFlowRefError("in_", into.typeName))
    ensures r.0.idMap == flow.idMap
    ensures into.IsRef? && from.IsRef? ==> r.0.groups == Touch(flow.groups, into.ref.flowId)
    ensures r.1.Err? ==> r.0.processors == flow.processors
    ensures from.IsRef? && into.IsRef? && into.ref.flowId !in flow.processors && !HasGroup(flow, into.ref.flowId, to)
      ==> r.1 == Err(KeyError(into.ref.flowId))
    ensures from.IsRef? && into.IsRef? && (HasGroup(flow, into.ref.flowId, to)
      || (into.ref.flowId in flow.processors && to in flow.processors[into.ref.flowId].arguments))
      ==> r.1.Err? && r.1.error.ValueError?
    ensures r.1.Ok? <==>
      && from.IsRef? && into.IsRef? && !HasGroup(flow, into.ref.flowId, to)
      && into.ref.flowId in flow.processors && to !in flow.processors[into.ref.flowId].arguments
    ensures r.1.Ok? ==> r.0.processors.Keys == flow.processors.Keys
    ensures r.1.Ok? ==>
      var id := into.ref.flowId;
      var before, after := flow.processors[id], r.0.processors[id];
      && (forall other :: other in flow.processors && other != id ==> r.0.processors[other] == flow.processors[other])
      && after.(arguments := before.arguments) == before
      && after.arguments.Keys == before.arguments.Keys + {to}
      && after.arguments[to] == FromProcessor(from.ref.flowId)
      && (forall k :: k in before.arguments ==> after.arguments[k] == before.arguments[k])
  {
    if from.NotRef? then
      (flow, Err(NotFlowRefError("from_", from.typeName)))
    else if into.NotRef? then
      (flow, Err(NotFlowRefError("in_", into.typeName)))
    else
      var id := into.ref.flowId;
      var touched := flow.(groups := Touch(flow.groups, id));
      if HasGroup(flow, id, to) then
        (touched, Err(AlreadySetError(id, "a group", to)))
      else if id !in flow.processors then (touched, Err(KeyError(id)))
      else if to in flow.processors[id].arguments then
        (touched, Err(AlreadySetError(id, "an argument", to)))
      else
        var p := flow.processors[id];
        var p' := p.(arguments := p.arguments[to := FromProcessor(from.ref.flowId)]);
        (touched.(processors := flow.processors[id := p']), Ok(()))
  }

  /** A binding cannot be made twice: a second `addflow` to the same
      argument fails, whatever it reads from, and changes nothing. */
  lemma AddFlowOnce(flow: Flow, from: RefArg, to: string, into: RefArg, from2: RefArg)
    requires AddFlow(flow, from, to, into).1.Ok? && from2.IsRef?
    ensures var f := AddFlow(flow, from, to, into).0;
      AddFlow(f, from2, to, into) == (f, Err(AlreadySetError(into.ref.flowId, "an argument", to)))
  {
  }

  /** The empty group dict the lookup may add holds no group, so the
      upload visits the same groups in the same order. */
  lemma {:induction false} TouchKeepsGroups(groups: Dict<Dict<FlowGroup>>, id: string)
    ensures Flatten(Touch(groups, id)) == Flatten(groups)
  {
    if Get(groups, id).None? {
      FlattenEmptyLast(groups, id);
    }
  }

  lemma {:induction false} FlattenEmptyLast(groups: Dict<Dict<FlowGroup>>, id: string)
    ensures Flatten(groups + [(id, [])]) == Flatten(groups)
    decreases |groups|
  {
    var g := groups + [(id, [])];
    if |groups| == 0 {
      assert Flatten(g[1..]) == [];
      assert Values(g[0].1) == [];
    } else {
      assert g[0] == groups[0];
      assert g[1..] == groups[1..] + [(id, [])];
      FlattenEmptyLast(groups[1..], id);
    }
  }

  /** The values of a dict, in insertion order. */
  function Values<V>(d: Dict<V>): (r: seq<V>)
    ensures |r| == |d| && forall i :: 0 <= i < |d| ==> r[i] == d[i].1
  {
    seq(|d|, i requires 0 <= i < |d| => d[i].1)
  }

  /** The stored groups in the order `upload_collections` visits them. */
  function Flatten(groups: Dict<Dict<FlowGroup>>): (r: seq<FlowGroup>)
    ensures forall id, d, k, g :: Get(groups, id) == Some(d) && Get(d, k) == Some(g) ==> g in r
  {
    if |groups| == 0 then []
    else
      var r := Values(groups[0].1) + Flatten(groups[1..]);
      forall id, d, k, g | Get(groups, id) == Some(d) && Get(d, k) == Some(g) ensures g in r {
        if groups[0].0 == id {
          var i :| 0 <= i < |d| && d[i] == (k, g);
          assert r[i] == g;
        } else {
          assert Get(groups[1..], id) == Some(d);
        }
      }
      r
  }

  /** The collection names of the groups, in order. */
  function CollectionNames(s: seq<FlowGroup>): (r: seq<string>)
    ensures |r| == |s| && forall i :: 0 <= i < |s| ==> r[i] == s[i].collectionName
  {
    seq(|s|, i requires 0 <= i < |s| => s[i].collectionName)
  }

  /** `upload_collections`: one document per visited group, in the order
      `Flatten` visits them; the i-th document created answers `docId(i)`.
      Exactly the visited collection names are mapped. */
  function UploadCollections(flow: Flow, docId: nat -> string): (r: map<string, string>)
    ensures var s := Flatten(flow.groups);
      forall c :: c in r <==> exists i :: 0 <= i < |s| && s[i].collectionName == c
  {
    CollectionNamesOf(Flatten(flow.groups));
    Collect(CollectionNames(Flatten(flow.groups)), docId)
  }

  /** Every stored group's collection name is uploaded. */
  lemma UploadCoversStored(flow: Flow, docId: nat -> string)
    ensures forall id, d, k, g: FlowGroup :: Get(flow.groups, id) == Some(d) && Get(d, k) == Some(g) ==>
      g.collectionName in UploadCollections(flow, docId)
  {
    StoredCollections(flow.groups);
    CollectionNamesOf(Flatten(flow.groups));
  }

  /** A collection name maps to the reference of the document made from
      the data of the last group visited with that name. */
  lemma UploadLastWins(flow: Flow, docId: nat -> string)
    ensures var s := Flatten(flow.groups);
      forall i :: 0 <= i < |s| && CollectionNames(s)[i] !in CollectionNames(s)[i + 1..] ==>
        s[i].collectionName in UploadCollections(flow, docId)
        && UploadCollections(flow, docId)[s[i].collectionName] == DocRef(docId(i))
  {
    var s := Flatten(flow.groups);
    var names := CollectionNames(s);
    forall i | 0 <= i < |s| && names[i] !in names[i + 1..]
      ensures s[i].collectionName in UploadCollections(flow, docId)
        && UploadCollections(flow, docId)[s[i].collectionName] == DocRef(docId(i))
    {
      assert names[i] == s[i].collectionName;
    }
  }

  /** Every stored group's collection name is among the visited ones. */
  lemma StoredCollections(groups: Dict<Dict<FlowGroup>>)
    ensures forall id, d, k, g: FlowGroup :: Get(groups, id) == Some(d) && Get(d, k) == Some(g) ==>
      g.collectionName in CollectionNames(Flatten(groups))
  {
    var s := Flatten(groups);
    forall id, d, k, g: FlowGroup | Get(groups, id) == Some(d) && Get(d, k) == Some(g)
      ensures g.collectionName in CollectionNames(s)
    {
      var i :| 0 <= i < |s| && s[i] == g;
      assert CollectionNames(s)[i] == g.collectionName;
    }
  }

  lemma CollectionNamesOf(s: seq<FlowGroup>)
    ensures forall c :: c in CollectionNames(s) <==> exists i :: 0 <= i < |s| && s[i].collectionName == c
  {
    forall c | c in CollectionNames(s) ensures exists i :: 0 <= i < |s| && s[i].collectionName == c {
      var i :| 0 <= i < |s| && CollectionNames(s)[i] == c;
    }
  }
}
