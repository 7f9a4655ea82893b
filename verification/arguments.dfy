/** Argument metadata of logic functions: the specification record and the
    markers `Input`, `InputGroup`, `File` and `RunContext` that a logic
    function puts as parameter defaults (modelling/arguments.py). */
module Arguments {
  import opened Wrappers

  /** A Python value given as a default: None, or any other value, known by
      its JSON text. */
  datatype Value = NoneValue | Json(text: string)

  /** A default slot that may hold the `no_default` sentinel. */
  datatype Default = NoDefault | Default(value: Value)

  /** The `file_mode` literals. */
  datatype FileMode = Single | Multi | Obj

  /** `ArgumentSpecification`. `extra` holds the keywords the model accepts
      beyond its declared fields. */
  datatype Specification = Specification(
    default: Default,
    required: bool,
    title: Option<string>,
    description: Option<string>,
    group: string,
    fileMode: Option<FileMode>,
    extra: map<string, Value>)

  const DefaultGroup := "$default"
  const DefaultContextModel := "Config"

  /** The keyword arguments a caller passes to `Input`, `InputGroup` or
      `File`, each absent unless given; `extra` holds every other keyword. */
  datatype Keywords = Keywords(
    default: Option<Value>,
    required: Option<bool>,
    title: Option<string>,
    description: Option<string>,
    group: Option<string>,
    fileMode: Option<FileMode>,
    extra: map<string, Value>)

  const NoKeywords := Keywords(None, None, None, None, None, None, map[])

  /** The objects the markers return: a plain input, a grouped input, or a
      request for the run context with its model (by class name). */
  datatype Marker =
    | InputArgument(spec: Specification)
    | InputArgumentGroup(spec: Specification)
    | Context(model: string)

  /** `ArgumentSpecification.model_validate(kwargs)`: a field given takes
      its value, a field not given takes the class default. */
  function Validate(kw: Keywords): (r: Specification)
    ensures kw.default.Some? ==> r.default == Default(kw.default.value)
    ensures kw.default.None? ==> r.default == Default(NoneValue)
    ensures kw.required.Some? ==> r.required == kw.required.value
    ensures kw.required.None? ==> r.required
    ensures kw.group.Some? ==> r.group == kw.group.value
    ensures kw.group.None? ==> r.group == DefaultGroup
    ensures r.fileMode == kw.fileMode
    ensures r.title == kw.title && r.description == kw.description && r.extra == kw.extra
  {
    Specification(
      Default(kw.default.GetOr(NoneValue)),
      kw.required.GetOr(true),
      kw.title,
      kw.description,
      kw.group.GetOr(DefaultGroup),
      kw.fileMode,
      kw.extra)
  }

  /** The keywords both `Input` and `InputGroup` overwrite: the stored
      default is the positional one, or None when there is none, and the
      argument is required exactly when there is none. */
  function Overwrite(default: Default, kw: Keywords): Keywords {
    kw.(default := Some(if default.Default? then default.value else NoneValue),
        required := Some(default.NoDefault?))
  }

  /** `Input(default, /, group=None, **kwargs)`. `kw.group` is the `group`
      parameter: a keyword named `group` always binds to it, so the lookup
      of `group` among the other keywords never finds one, and the group is
      `group or '$default'`. */
  function Input(default: Default, kw: Keywords): (r: Marker)
    ensures r.InputArgument?
    ensures r.spec.required <==> default.NoDefault?
    ensures default.NoDefault? ==> r.spec.default == Default(NoneValue)
    ensures default.Default? ==> r.spec.default == default
    ensures Truthy(kw.group) ==> r.spec.group == kw.group.value
    ensures !Truthy(kw.group) ==> r.spec.group == DefaultGroup
    ensures r.spec.title == kw.title && r.spec.description == kw.description
    ensures r.spec.fileMode == kw.fileMode && r.spec.extra == kw.extra
  {
    InputArgument(Validate(Overwrite(default, kw).(group := Some(OrElse(kw.group, DefaultGroup)))))
  }

  /** `InputGroup(default, /, **kwargs)`: the same default rule, and the
      group taken from the keywords as given (an empty text is kept). */
  function InputGroup(default: Default, kw: Keywords): (r: Marker)
    ensures r.InputArgumentGroup?
    ensures r.spec.required <==> default.NoDefault?
    ensures default.NoDefault? ==> r.spec.default == Default(NoneValue)
    ensures default.Default? ==> r.spec.default == default
    ensures r.spec.group == kw.group.GetOr(DefaultGroup)
    ensures r.spec.fileMode == kw.fileMode
    ensures r.spec.title == kw.title && r.spec.description == kw.description
    ensures r.spec.extra == kw.extra
  {
    InputArgumentGroup(Validate(Overwrite(default, kw)))
  }

  /** `File(type='single', **kwargs)`: a grouped input in file mode. No
      positional default reaches `InputGroup`, so a file argument is always
      required, whatever `required` or `default` the keywords carry. */
  function File(fileType: FileMode, kw: Keywords): (r: Marker)
    ensures r.InputArgumentGroup?
    ensures r.spec.required
    ensures r.spec.default == Default(NoneValue)
    ensures r.spec.fileMode == Some(fileType)
    ensures r.spec.group == kw.group.GetOr(DefaultGroup)
    ensures r.spec.title == kw.title && r.spec.description == kw.description
  {
    InputGroup(NoDefault, kw.(fileMode := Some(fileType)))
  }

  /** `RunContext(model=Config)`. */
  function RunContext(model: Option<string>): (r: Marker)
    ensures r.Context?
    ensures model.Some? ==> r.model == model.value
    ensures model.None? ==> r.model == DefaultContextModel
  {
    Context(model.GetOr(DefaultContextModel))
  }

  /** A specification validated from no keywords carries the class
      defaults: default None, required, group `$default`, no file mode. */
  lemma SpecificationDefaults()
    ensures Validate(NoKeywords) ==
      Specification(Default(NoneValue), true, None, None, "$default", None, map[])
  {
  }

  /** The `default` and `required` keywords never matter: `Input` and
      `InputGroup` overwrite both, so `Input(default="en")` is still a
      required argument whose stored default is None. */
  lemma KeywordDefaultIgnored(default: Default, kw: Keywords, d: Option<Value>, q: Option<bool>)
    ensures Input(default, kw.(default := d, required := q)) == Input(default, kw)
    ensures InputGroup(default, kw.(default := d, required := q)) == InputGroup(default, kw)
    ensures Input(NoDefault, kw.(default := d, required := q)).spec.required
    ensures Input(NoDefault, kw.(default := d, required := q)).spec.default == Default(NoneValue)
  {
  }

  /** `Input` and `InputGroup` never store the `no_default` sentinel. */
  lemma MarkersNeverStoreSentinel(default: Default, kw: Keywords, t: FileMode)
    ensures Input(default, kw).spec.default.Default?
    ensures InputGroup(default, kw).spec.default.Default?
    ensures File(t, kw).spec.default.Default?
  {
  }
}
