/** The signature analysis of the logic-function decorator
    (modelling/function.py): the parameter-kind check, the classification
    of parameters into input maps, and the decorator's own validation. A
    parameter is given by an abstract descriptor in place of reflection. */
module LogicFunctions {
  import opened Wrappers
  import opened Text
  import opened Arguments

  /** `inspect.Parameter.kind`. */
  datatype ParamKind = PositionalOnly | PositionalOrKeyword | VarPositional | KeywordOnly | VarKeyword

  /** A parameter annotation: missing (`Signature.empty`), or a type known by
      its name and by whether it is a pydantic model class. */
  datatype Annotation = Missing | Annotated(typeName: string, isModel: bool)

  /** A parameter default: none (`Signature.empty`), one of the argument
      markers, or any other value. */
  datatype ParamDefault = Empty | Marked(marker: Marker) | Plain(value: Value)

  datatype Parameter = Parameter(name: string, kind: ParamKind, annotation: Annotation, default: ParamDefault)

  /** The second half of an input-map field: `...` (required) or a default. */
  datatype FieldDefault = Required | DefaultsTo(value: Value)

  datatype Field = Field(annotation: Annotation, default: FieldDefault)

  /** An input-map entry: the `(type, default)` tuple of a grouped input, or
      the dict of fields of the default input key. */
  datatype Entry = GroupEntry(field: Field) | Fields(fields: map<string, Field>)

  /** What `process_function_arguments` returns, plus the group each marker
      specification is given along the way. */
  datatype Processed = Processed(
    inputMap: map<string, Entry>,
    inputKinds: map<string, string>,
    hasContext: bool,
    contextModel: Option<string>,
    assignedGroups: map<string, string>)

  const Nothing := Processed(map[], map[], false, None, map[])
  const DefaultInputKey := "__input__"
  const DocKind := "doc"

  predicate SelfOrCls(name: string) {
    name == "self" || name == "cls"
  }

  /** Kinds `_check_arguments` accepts. */
  predicate Accepted(kind: ParamKind) {
    kind == PositionalOrKeyword || kind == KeywordOnly
  }

  /** The NotImplementedError `_check_arguments` raises for a kind it rejects. */
  function KindError(kind: ParamKind): Error
    requires !Accepted(kind)
  {
    if kind == PositionalOnly then NotImplementedError("Positional-only arguments are not supported")
    else NotImplementedError("Variadic arguments are not supported")
  }

  /** `_check_arguments`: the first parameter of a rejected kind raises. */
  function CheckArguments(params: seq<Parameter>): (r: Result<()>)
    ensures r.Ok? <==> forall i :: 0 <= i < |params| ==> Accepted(params[i].kind)
    ensures r.Err? ==>
      exists i :: (0 <= i < |params| && !Accepted(params[i].kind)
        && r.error == KindError(params[i].kind)
        && forall j :: 0 <= j < i ==> Accepted(params[j].kind))
  {
    if |params| == 0 then Ok(())
    else if !Accepted(params[0].kind) then Err(KindError(params[0].kind))
    else
      var r := CheckArguments(params[1..]);
      assert forall i :: 0 < i < |params| ==> params[i] == params[1..][i - 1];
      if r.Err? then
        var i :| 0 <= i < |params[1..]| && !Accepted(params[1..][i].kind)
          && r.error == KindError(params[1..][i].kind)
          && forall j :: 0 <= j < i ==> Accepted(params[1..][j].kind);
        assert params[i + 1] == params[1..][i];
        r
      else r
  }

  /** The field default of a marker specification: required only for the
      sentinel. */
  function FieldDefaultOf(d: Default): (r: FieldDefault)
    ensures r.Required? <==> d.NoDefault?
    ensures d.Default? ==> r == DefaultsTo(d.value)
  {
    if d.NoDefault? then Required else DefaultsTo(d.value)
  }

  /** The field default of a plain parameter: required only without a
      default. */
  function PlainDefaultOf(d: ParamDefault): (r: FieldDefault)
    requires !d.Marked?
    ensures r.Required? <==> d.Empty?
    ensures d.Plain? ==> r == DefaultsTo(d.value)
  {
    if d.Empty? then Required else DefaultsTo(d.value)
  }

  /** Kinds are recorded for exactly the keys of the input map, all `doc`. */
  predicate KindsAgree(acc: Processed) {
    acc.inputKinds.Keys == acc.inputMap.Keys
    && forall k :: k in acc.inputKinds ==> acc.inputKinds[k] == DocKind
  }

  /** The error of writing a field into the tuple a grouped input named
      like the default key has left there. */
  const TupleError := TypeError("'tuple' object does not support item assignment")

  /** `input_map.setdefault(key, {})[name] = field`, with its kind. */
  function AddField(acc: Processed, key: string, name: string, field: Field): (r: Result<Processed>)
    ensures r.Err? <==> key in acc.inputMap && acc.inputMap[key].GroupEntry?
    ensures r.Err? ==> r.error == TupleError
    ensures r.Ok? ==>
      (key in r.value.inputMap && r.value.inputMap[key].Fields?
       && name in r.value.inputMap[key].fields && r.value.inputMap[key].fields[name] == field)
    ensures r.Ok? && key in acc.inputMap ==>
      forall n :: n in acc.inputMap[key].fields && n != name ==>
        n in r.value.inputMap[key].fields
        && r.value.inputMap[key].fields[n] == acc.inputMap[key].fields[n]
    ensures r.Ok? ==> forall k :: k != key ==> (k in r.value.inputMap <==> k in acc.inputMap)
    ensures r.Ok? ==> forall k :: k != key && k in acc.inputMap ==> r.value.inputMap[k] == acc.inputMap[k]
    ensures r.Ok? ==> r.value.inputKinds == acc.inputKinds[key := DocKind]
    ensures r.Ok? ==> r.value.hasContext == acc.hasContext && r.value.contextModel == acc.contextModel
    ensures r.Ok? ==> r.value.assignedGroups == acc.assignedGroups
  {
    if key in acc.inputMap && acc.inputMap[key].GroupEntry? then Err(TupleError)
    else
      var fields := if key in acc.inputMap then acc.inputMap[key].fields else map[];
      Ok(acc.(inputMap := acc.inputMap[key := Fields(fields[name := field])],
              inputKinds := acc.inputKinds[key := DocKind]))
  }

  const FileModeError := ValueError("File mode is not supported in this implementation. Use doc mode only.")

  function NotModelError(name: string): Error {
    ValueError("Input argument group `" + name + "` must be a Pydantic model")
  }

  /** One iteration of the loop of `process_function_arguments`. */
  function Step(acc: Processed, p: Parameter, key: string): (r: Result<Processed>)
    ensures SelfOrCls(p.name) ==> r == Ok(acc)
    ensures !SelfOrCls(p.name) && p.default.Marked? && p.default.marker.InputArgumentGroup? ==>
      var spec := p.default.marker.spec;
      && (r.Ok? <==> spec.fileMode.None? && p.annotation.Annotated? && p.annotation.isModel)
      && (spec.fileMode.Some? ==> r == Err(FileModeError))
      && (spec.fileMode.None? && r.Err? ==> r.error == NotModelError(p.name))
      && (r.Ok? ==> r.value == acc.(
            inputMap := acc.inputMap[p.name := GroupEntry(Field(p.annotation, FieldDefaultOf(spec.default)))],
            inputKinds := acc.inputKinds[p.name := DocKind],
            assignedGroups := acc.assignedGroups[p.name := p.name]))
    ensures !SelfOrCls(p.name) && p.default.Marked? && p.default.marker.Context? ==>
      r == Ok(acc.(hasContext := true, contextModel := Some(p.default.marker.model)))
    ensures !SelfOrCls(p.name) && p.default.Marked? && p.default.marker.InputArgument? ==>
      var added := AddField(acc, key, p.name, Field(p.annotation, FieldDefaultOf(p.default.marker.spec.default)));
      && (r.Err? <==> added.Err?)
      && (r.Ok? ==> r.value == added.value.(assignedGroups := acc.assignedGroups[p.name := key]))
    ensures !SelfOrCls(p.name) && !p.default.Marked? ==>
      r == AddField(acc, key, p.name, Field(p.annotation, PlainDefaultOf(p.default)))
    ensures r.Ok? && KindsAgree(acc) ==> KindsAgree(r.value)
  {
    if SelfOrCls(p.name) then Ok(acc)
    else
      match p.default
      case Marked(InputArgumentGroup(spec)) =>
        if spec.fileMode.Some? then Err(FileModeError)
        else if !(p.annotation.Annotated? && p.annotation.isModel) then Err(NotModelError(p.name))
        else
          Ok(acc.(
            inputMap := acc.inputMap[p.name := GroupEntry(Field(p.annotation, FieldDefaultOf(spec.default)))],
            inputKinds := acc.inputKinds[p.name := DocKind],
            assignedGroups := acc.assignedGroups[p.name := p.name]))
      case Marked(InputArgument(spec)) =>
        var added :- AddField(acc, key, p.name, Field(p.annotation, FieldDefaultOf(spec.default)));
        Ok(added.(assignedGroups := acc.assignedGroups[p.name := key]))
      case Marked(Context(model)) =>
        Ok(acc.(hasContext := true, contextModel := Some(model)))
      case _ =>
        AddField(acc, key, p.name, Field(p.annotation, PlainDefaultOf(p.default)))
  }

  /** The loop of `process_function_arguments` from `acc` on. */
  function Fold(params: seq<Parameter>, acc: Processed, key: string): (r: Result<Processed>)
    decreases |params|
  {
    if |params| == 0 then Ok(acc)
    else
      match Step(acc, params[0], key)
      case Err(e) => Err(e)
      case Ok(next) => Fold(params[1..], next, key)
  }

  /** A successful loop takes a successful first step. */
  lemma FoldUnfolds(params: seq<Parameter>, acc: Processed, key: string)
    requires |params| > 0 && Fold(params, acc, key).Ok?
    ensures Step(acc, params[0], key).Ok?
    ensures Fold(params[1..], Step(acc, params[0], key).value, key) == Fold(params, acc, key)
  {
  }

  /** `process_function_arguments(parameters, default_input_key)`. */
  function Process(params: seq<Parameter>, key: string): (r: Result<Processed>)
    ensures r.Ok? ==> KindsAgree(r.value)
  {
    FoldKeepsKinds(params, Nothing, key);
    Fold(params, Nothing, key)
  }

  /** Every step keeps the kinds in line with the input map. */
  lemma {:induction false} FoldKeepsKinds(params: seq<Parameter>, acc: Processed, key: string)
    requires KindsAgree(acc)
    ensures Fold(params, acc, key).Ok? ==> KindsAgree(Fold(params, acc, key).value)
    decreases |params|
  {
    if |params| > 0 {
      var s := Step(acc, params[0], key);
      if s.Ok? {
        FoldKeepsKinds(params[1..], s.value, key);
      }
    }
  }

  /** `self` and `cls` parameters play no part: the outcome is that of the
      parameter list without them. */
  lemma {:induction false} SelfAndClsIgnored(params: seq<Parameter>, acc: Processed, key: string)
    ensures Fold(params, acc, key) == Fold(Filter(params, NotSelf), acc, key)
    decreases |params|
  {
    if |params| > 0 {
      if SelfOrCls(params[0].name) {
        SelfAndClsIgnored(params[1..], acc, key);
      } else {
        assert Filter(params, NotSelf) == [params[0]] + Filter(params[1..], NotSelf);
        assert Filter(params, NotSelf)[1..] == Filter(params[1..], NotSelf);
        var s := Step(acc, params[0], key);
        if s.Ok? {
          SelfAndClsIgnored(params[1..], s.value, key);
        }
      }
    }
  }

  function NotSelf(p: Parameter): bool {
    !SelfOrCls(p.name)
  }

  /** A grouped input: a parameter whose default is an `InputGroup` or
      `File` marker and which is not `self`/`cls`. */
  predicate IsGroupParam(p: Parameter) {
    !SelfOrCls(p.name) && p.default.Marked? && p.default.marker.InputArgumentGroup?
  }

  /** Every key of the input map is the default key or the name of a
      grouped input; in particular `self` and `cls` never appear unless the
      default key is one of them. */
  lemma {:induction false} KeysFromGroups(params: seq<Parameter>, acc: Processed, key: string)
    requires forall k :: k in acc.inputMap ==> k == key
    requires Fold(params, acc, key).Ok?
    ensures forall k :: k in Fold(params, acc, key).value.inputMap ==>
      k == key || exists i :: 0 <= i < |params| && IsGroupParam(params[i]) && params[i].name == k
    decreases |params|
  {
    if |params| > 0 {
      KeysFromGroupsFrom(params, acc, key, 0);
    }
  }

  /** The invariant of KeysFromGroups over the suffix from `n` on. */
  lemma {:induction false} KeysFromGroupsFrom(params: seq<Parameter>, acc: Processed, key: string, n: nat)
    requires n <= |params|
    requires forall k :: k in acc.inputMap ==>
      k == key || exists i :: 0 <= i < n && IsGroupParam(params[i]) && params[i].name == k
    requires Fold(params[n..], acc, key).Ok?
    ensures forall k :: k in Fold(params[n..], acc, key).value.inputMap ==>
      k == key || exists i :: 0 <= i < |params| && IsGroupParam(params[i]) && params[i].name == k
    decreases |params| - n
  {
    if n < |params| {
      var p := params[n];
      assert params[n..][0] == p;
      assert params[n..][1..] == params[n + 1..];
      var next := Step(acc, p, key).value;
      forall k | k in next.inputMap
        ensures k == key || exists i :: 0 <= i < n + 1 && IsGroupParam(params[i]) && params[i].name == k
      {
        if k != key && k !in acc.inputMap {
          assert IsGroupParam(p) && p.name == k;
        }
      }
      KeysFromGroupsFrom(params, next, key, n + 1);
    }
  }

  /** Steps for other names leave an entry alone, except those that write
      the default key. */
  lemma {:induction false} EntryKept(params: seq<Parameter>, acc: Processed, key: string, name: string)
    requires name != key
    requires forall i :: 0 <= i < |params| ==> params[i].name != name
    requires Fold(params, acc, key).Ok?
    ensures name in Fold(params, acc, key).value.inputMap <==> name in acc.inputMap
    ensures name in acc.inputMap ==> Fold(params, acc, key).value.inputMap[name] == acc.inputMap[name]
    ensures name in acc.assignedGroups <==> name in Fold(params, acc, key).value.assignedGroups
    ensures name in acc.assignedGroups ==>
      Fold(params, acc, key).value.assignedGroups[name] == acc.assignedGroups[name]
    decreases |params|
  {
    if |params| > 0 {
      EntryKept(params[1..], Step(acc, params[0], key).value, key, name);
    }
  }

  /** A grouped input of a successful analysis is entered under its own
      name as a required-or-default tuple of kind `doc`, and its
      specification's group becomes its name. */
  lemma GroupParamEntered(params: seq<Parameter>, key: string, i: nat)
    requires i < |params| && IsGroupParam(params[i]) && params[i].name != key
    requires forall j :: 0 <= j < |params| && j != i ==> params[j].name != params[i].name
    requires Process(params, key).Ok?
    ensures var r := Process(params, key).value;
      var p := params[i];
      && p.name in r.inputMap && p.name in r.inputKinds && p.name in r.assignedGroups
      && r.inputMap[p.name] == GroupEntry(Field(p.annotation, FieldDefaultOf(p.default.marker.spec.default)))
      && r.inputKinds[p.name] == DocKind
      && r.assignedGroups[p.name] == p.name
      && p.default.marker.spec.fileMode.None? && p.annotation.Annotated? && p.annotation.isModel
  {
    var before := FoldPrefix(params, Nothing, key, i);
    var at := Step(before, params[i], key).value;
    assert params[i..][0] == params[i] && params[i..][1..] == params[i + 1..];
    EntryKept(params[i + 1..], at, key, params[i].name);
  }

  /** Running the loop over a prefix: the state before parameter `n`. */
  lemma {:induction false} FoldPrefix(params: seq<Parameter>, acc: Processed, key: string, n: nat)
    returns (before: Processed)
    requires n <= |params|
    requires Fold(params, acc, key).Ok?
    ensures Fold(params[n..], before, key) == Fold(params, acc, key)
    decreases n
  {
    if n == 0 {
      assert params[0..] == params;
      before := acc;
    } else {
      FoldUnfolds(params, acc, key);
      assert params[1..][n - 1..] == params[n..];
      before := FoldPrefix(params[1..], Step(acc, params[0], key).value, key, n - 1);
    }
  }

  /** A grouped input whose file mode is set, or whose annotation is not a
      model, makes the whole analysis fail. */
  lemma GroupParamRejected(params: seq<Parameter>, key: string, i: nat)
    requires i < |params| && IsGroupParam(params[i])
    requires params[i].default.marker.spec.fileMode.Some? || !(params[i].annotation.Annotated? && params[i].annotation.isModel)
    ensures Process(params, key).Err?
  {
    FoldRejects(params, Nothing, key, i);
  }

  lemma {:induction false} FoldRejects(params: seq<Parameter>, acc: Processed, key: string, i: nat)
    requires i < |params| && IsGroupParam(params[i])
    requires params[i].default.marker.spec.fileMode.Some? || !(params[i].annotation.Annotated? && params[i].annotation.isModel)
    ensures Fold(params, acc, key).Err?
    decreases i
  {
    var s := Step(acc, params[0], key);
    if i > 0 && s.Ok? {
      FoldRejects(params[1..], s.value, key, i - 1);
    }
  }

  /** A plain parameter, or one marked by `Input`, becomes the field of its
      name in the default key's dict: required exactly when a plain
      parameter has no default or the marker holds the sentinel. */
  lemma FieldEntered(params: seq<Parameter>, key: string, i: nat)
    requires i < |params| && !SelfOrCls(params[i].name)
    requires !params[i].default.Marked? || params[i].default.marker.InputArgument?
    requires forall j :: 0 <= j < |params| ==> params[j].name != key
    requires forall j :: 0 <= j < |params| && j != i ==> params[j].name != params[i].name
    requires Process(params, key).Ok?
    ensures var r := Process(params, key).value;
      var p := params[i];
      && key in r.inputMap && r.inputMap[key].Fields? && p.name in r.inputMap[key].fields
      && r.inputMap[key].fields[p.name] == Field(p.annotation,
           if p.default.Marked? then FieldDefaultOf(p.default.marker.spec.default) else PlainDefaultOf(p.default))
      && key in r.inputKinds && r.inputKinds[key] == DocKind
  {
    var before := FoldPrefix(params, Nothing, key, i);
    var at := Step(before, params[i], key).value;
    assert params[i..][0] == params[i] && params[i..][1..] == params[i + 1..];
    FieldKept(params[i + 1..], at, key, params[i].name);
    FoldKeepsKinds(params, Nothing, key);
  }

  /** Later steps keep a field of the default key's dict. */
  lemma {:induction false} FieldKept(params: seq<Parameter>, acc: Processed, key: string, name: string)
    requires key in acc.inputMap && acc.inputMap[key].Fields? && name in acc.inputMap[key].fields
    requires forall j :: 0 <= j < |params| ==> params[j].name != key && params[j].name != name
    requires Fold(params, acc, key).Ok?
    ensures var r := Fold(params, acc, key).value;
      key in r.inputMap && r.inputMap[key].Fields? && name in r.inputMap[key].fields
      && r.inputMap[key].fields[name] == acc.inputMap[key].fields[name]
    decreases |params|
  {
    if |params| > 0 {
      FieldKept(params[1..], Step(acc, params[0], key).value, key, name);
    }
  }

  predicate IsContextParam(p: Parameter) {
    !SelfOrCls(p.name) && p.default.Marked? && p.default.marker.Context?
  }

  /** A run context is requested exactly when some parameter (not
      `self`/`cls`) has a `RunContext` default; the last such one gives the
      model. */
  lemma {:induction false} ContextDetected(params: seq<Parameter>, acc: Processed, key: string)
    requires Fold(params, acc, key).Ok?
    ensures var r := Fold(params, acc, key).value;
      r.hasContext <==> acc.hasContext || exists i :: 0 <= i < |params| && IsContextParam(params[i])
    ensures var r := Fold(params, acc, key).value;
      forall i :: (0 <= i < |params| && IsContextParam(params[i])
                   && (forall j :: i < j < |params| ==> !IsContextParam(params[j]))) ==>
        r.contextModel == Some(params[i].default.marker.model)
    ensures var r := Fold(params, acc, key).value;
      (forall i :: 0 <= i < |params| ==> !IsContextParam(params[i])) ==> r.contextModel == acc.contextModel
    decreases |params|
  {
    if |params| > 0 {
      var next := Step(acc, params[0], key).value;
      ContextDetected(params[1..], next, key);
      assert forall i :: 0 < i < |params| ==> params[i] == params[1..][i - 1];
      if exists i :: 0 <= i < |params| && IsContextParam(params[i]) {
        if !IsContextParam(params[0]) {
          var i :| 0 <= i < |params| && IsContextParam(params[i]);
          assert IsContextParam(params[1..][i - 1]);
        }
      }
    }
  }

  /** Which of the decorator's optional providers were given. */
  datatype Providers = Providers(instance: bool, instanceFactory: bool, cls: bool, clsFactory: bool)

  /** A parameter named `name` without a default: the marks of an instance
      (`self`) or class (`cls`) method. */
  predicate Undefaulted(params: seq<Parameter>, name: string) {
    exists i | 0 <= i < |params| :: params[i].name == name && params[i].default.Empty?
  }

  /** A parameter the decorator cannot annotate: no annotation, not
      `self`/`cls`, and no `RunContext` default to infer one from. */
  predicate Unannotated(p: Parameter) {
    !SelfOrCls(p.name) && p.annotation.Missing? && !(p.default.Marked? && p.default.marker.Context?)
  }

  /** Index of the first unannotated parameter. */
  function FirstUnannotated(params: seq<Parameter>): (r: Option<nat>)
    ensures r.Some? ==>
      (r.value < |params| && Unannotated(params[r.value])
       && forall j :: 0 <= j < r.value ==> !Unannotated(params[j]))
    ensures r.None? ==> forall j :: 0 <= j < |params| ==> !Unannotated(params[j])
  {
    if |params| == 0 then None
    else if Unannotated(params[0]) then Some(0)
    else
      match FirstUnannotated(params[1..])
      case None => None
      case Some(k) => Some(k + 1)
  }

  function NoReturnError(fnName: string): Error {
    ValueError("Could not infer return annotation for logic function `" + fnName + "`. "
      + "Please specify the return annotation explicitly.")
  }

  function NoAnnotationError(param: string, fnName: string): Error {
    ValueError("Could not infer annotation for argument `" + param + "` of logic function `" + fnName + "`. "
      + "Please specify the annotation explicitly.")
  }

  function ClsError(fnName: string): Error {
    ValueError("Logic function `" + fnName + "` is a class method, but neither `cls` nor `cls_factory` is provided")
  }

  function InstanceError(fnName: string): Error {
    ValueError("Logic function `" + fnName + "` is an instance method, but neither `instance` nor `instance_factory` is provided")
  }

  /** The checks of the decorator, in order, then the parameter analysis
      under the key `__input__`. */
  function Decorate(fnName: string, result: Annotation, params: seq<Parameter>, given: Providers): (r: Result<Processed>)
    ensures result.Missing? ==> r == Err(NoReturnError(fnName))
    ensures result.Annotated? && FirstUnannotated(params).Some? ==>
      r == Err(NoAnnotationError(params[FirstUnannotated(params).value].name, fnName))
    ensures r.Ok? <==>
      && result.Annotated?
      && (forall j :: 0 <= j < |params| ==> !Unannotated(params[j]))
      && (forall j :: 0 <= j < |params| ==> Accepted(params[j].kind))
      && (Undefaulted(params, "cls") ==> given.cls || given.clsFactory)
      && (Undefaulted(params, "self") ==> given.instance || given.instanceFactory)
      && Process(params, DefaultInputKey).Ok?
    ensures r.Ok? ==> r == Process(params, DefaultInputKey)
    ensures (r.Err? && result.Annotated? && FirstUnannotated(params).None?
             && CheckArguments(params).Ok? && Undefaulted(params, "cls") && !given.cls && !given.clsFactory) ==>
      r == Err(ClsError(fnName))
  {
    if result.Missing? then Err(NoReturnError(fnName))
    else if FirstUnannotated(params).Some? then
      Err(NoAnnotationError(params[FirstUnannotated(params).value].name, fnName))
    else
      var _ :- CheckArguments(params);
      if Undefaulted(params, "cls") && !given.cls && !given.clsFactory then Err(ClsError(fnName))
      else if Undefaulted(params, "self") && !given.instance && !given.instanceFactory then Err(InstanceError(fnName))
      else Process(params, DefaultInputKey)
  }
}
