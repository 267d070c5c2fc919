/** The state of a container as `ContainerState` holds it: twelve typed
    properties hydrated from required keys of the `State` member of
    `podman inspect` output, plus `Exited`, which `__toArray` exports but
    `__fromArray` never assigns. */
module ContainerStates {
  import opened Failures
  import opened JsonValues
  import opened TypedProperties
  import opened Externals

  const Owner: string := "ContainerState"

  /** The assignments of `ContainerState::__fromArray`, in order; every key is required. */
  const Schema: seq<Prop> := [
    Prop("OciVersion", Str, Required),
    Prop("Status", Str, Required),
    Prop("Pid", Int, Required),
    Prop("StartedAt", Str, Required),
    Prop("FinishedAt", Str, Required),
    Prop("ExitCode", Int, Required),
    Prop("Error", Str, Required),
    Prop("OOMKilled", Bool, Required),
    Prop("Dead", Bool, Required),
    Prop("Paused", Bool, Required),
    Prop("Restarting", Bool, Required),
    Prop("Running", Bool, Required)
  ]

  /** The declared property that no assignment of `__fromArray` touches. */
  const Exited: string := "Exited"

  /** The keys of `ContainerState::__toArray`, in order. */
  const ExportNames: seq<string> := [
    "OciVersion", "Status", "Pid", "StartedAt", "FinishedAt", "ExitCode", "Error",
    "OOMKilled", "Dead", "Paused", "Restarting", "Running", "Exited"
  ]

  /** The declarations are well formed, and `__toArray` exports the
      hydrated properties in the same order, followed by `Exited`. */
  lemma Declared()
    ensures WellDeclared(Schema) && AllRequired(Schema) && Distinct(ExportNames)
    ensures ExportNames == Names(Schema) + [Exited] && Exited !in Names(Schema)
  {
    ExportedNames();
    DistinctNames();
    DistinctSnoc(Names(Schema), Exited);
    Defaults();
  }

  lemma ExportedNames()
    ensures ExportNames == Names(Schema) + [Exited]
  {
  }

  lemma DistinctNames()
    ensures Distinct(Names(Schema)) && Exited !in Names(Schema)
  {
    ExportedNames();
    DistinctExports();
    DistinctUnsnoc(Names(Schema), Exited);
  }

  lemma DistinctExports()
    ensures Distinct(ExportNames)
  {
  }

  lemma Defaults()
    ensures DefaultsTyped(Schema) && AllRequired(Schema)
  {
  }

  /** Every assigned property holds a value of its declared type; `Exited` is a bool. */
  predicate WellTyped(props: map<string, Json>) {
    TypedProperties.Typed(props, Schema) && (Exited in props ==> props[Exited].JBool?)
  }

  /** `__toArray` over the current properties. */
  function Export(props: map<string, Json>): (r: Result<PhpArray>)
    ensures r.Ok? <==> forall i :: 0 <= i < |ExportNames| ==> ExportNames[i] in props
    ensures r.Ok? ==> r.value.JObject? && |r.value.members| == 13
    ensures r.Ok? ==> forall i :: 0 <= i < 13 ==> r.value.members[i] == (ExportNames[i], props[ExportNames[i]])
  {
    var ms :- ExportProps(Owner, props, ExportNames);
    Ok(JObject(ms))
  }

  /** `__toString`: the `Status` property. */
  function Describe(props: map<string, Json>): (r: Result<string>)
    ensures "Status" !in props ==> r == Err(Uninitialized(Context(Owner, "Status")))
    ensures props.Keys >= {"Status"} && props["Status"].JString? ==> r == Ok(props["Status"].s)
  {
    if "Status" in props then Ok(StringOf(props["Status"])) else Err(Uninitialized(Context(Owner, "Status")))
  }

  /** The error of passing a non-array to `ContainerState::__fromArray`. */
  const NotAnArray: Exception := TypeError("ContainerState::__fromArray(): Argument #1 ($data) must be of type array")

  /** `new ContainerState()` followed by `__fromArray(arg)`: a non-array argument is
      rejected before anything is assigned. */
  function Fresh(arg: Json): (h: Hydration)
    ensures !arg.IsArray() ==> h == Hydration(map[], Some(NotAnArray))
  {
    if arg.IsArray() then AssignAll(Owner, map[], arg, Schema) else Hydration(map[], Some(NotAnArray))
  }

  /** Hydration succeeds exactly when all twelve keys are present, non-null
      and of a value their property's type accepts; each property then holds
      the accepted value, verbatim when it already had the property's type. */
  lemma HydrationNeedsEveryKey(props: map<string, Json>, d: PhpArray)
    ensures AssignAll(Owner, props, d, Schema).failure.None? <==>
      forall i :: 0 <= i < |Schema| ==> (Get(d, Schema[i].name).Some?
        && Coerce(Schema[i].kind, Get(d, Schema[i].name).value, Context(Owner, Schema[i].name)).Ok?)
    ensures var h := AssignAll(Owner, props, d, Schema);
      h.failure.None? ==>
        forall i :: 0 <= i < |Schema| ==>
          && Schema[i].name in h.props
          && h.props[Schema[i].name] == Coerce(Schema[i].kind, Get(d, Schema[i].name).value, Context(Owner, Schema[i].name)).value
          && (HasKind(Get(d, Schema[i].name).value, Schema[i].kind) ==> h.props[Schema[i].name] == Get(d, Schema[i].name).value)
  {
    Declared();
    AssignAllFailure(Owner, props, d, Schema);
    HydrateRequired(Owner, props, d, Schema);
  }

  /** `__fromArray` leaves `Exited` as it was, assigned or not, whatever the
      outcome. */
  lemma ExitedUntouched(props: map<string, Json>, d: PhpArray)
    ensures var h := AssignAll(Owner, props, d, Schema);
      (Exited in h.props <==> Exited in props) && (Exited in props ==> h.props[Exited] == props[Exited])
  {
    Declared();
    AssignAllOthers(Owner, props, d, Schema, Exited);
  }

  /** Exporting right after a successful hydration: the twelve values
      hydration read, in order, then whatever `Exited` holds. */
  lemma ExportHydratedState(props: map<string, Json>, d: PhpArray)
    requires Conforms(Owner, d, Schema)
    ensures var h := AssignAll(Owner, props, d, Schema);
      var r12 := ExportProps(Owner, h.props, Names(Schema));
      && r12.Ok? && |r12.value| == 12
      && (forall i :: 0 <= i < 12 ==> r12.value[i] == (Schema[i].name, ReadProp(Owner, d, Schema[i]).value))
      && Export(h.props) == if Exited in props then Ok(JObject(r12.value + [(Exited, props[Exited])])) else Err(Uninitialized(Context(Owner, Exited)))
  {
    Declared();
    ExportAfterAssignAll(Owner, props, d, Schema, Exited);
  }

  /** On a state object that never had `Exited` assigned, `__toArray` fails
      after any successful hydration, on reading `Exited`. */
  lemma ExportOfFreshStateFails(props: map<string, Json>, d: PhpArray)
    requires Exited !in props
    requires Conforms(Owner, d, Schema)
    ensures Export(AssignAll(Owner, props, d, Schema).props) == Err(Uninitialized(Context(Owner, Exited)))
  {
    ExportHydratedState(props, d);
  }

  /** A new state object that hydrated from `arg` cannot be exported. */
  lemma FreshExportFails(arg: Json)
    requires Fresh(arg).failure.None?
    ensures Export(Fresh(arg).props) == Err(Uninitialized(Context(Owner, Exited)))
  {
    AssignAllFailure(Owner, map[], arg, Schema);
    ExportOfFreshStateFails(map[], arg);
  }

  /** Once `Exited` is assigned, exporting after hydration gives the twelve
      values hydration read, in order, followed by `Exited`. */
  lemma ExportAfterHydrate(props: map<string, Json>, d: PhpArray)
    requires Exited in props
    requires Conforms(Owner, d, Schema)
    ensures var r := Export(AssignAll(Owner, props, d, Schema).props);
      && r.Ok? && |r.value.members| == 13
      && (forall i :: 0 <= i < 12 ==> r.value.members[i] == (Schema[i].name, ReadProp(Owner, d, Schema[i]).value))
      && r.value.members[12] == (Exited, props[Exited])
  {
    ExportHydratedState(props, d);
  }

  /** Hydrating from the export of a complete state reproduces its twelve
      hydrated properties; the target's own `Exited` is kept. */
  lemma RoundTrip(props: map<string, Json>, target: map<string, Json>)
    requires WellTyped(props)
    requires Exited in props && forall i :: 0 <= i < |Schema| ==> Schema[i].name in props
    ensures Export(props).Ok?
    ensures var h := AssignAll(Owner, target, Export(props).value, Schema);
      && h.failure.None?
      && (forall i :: 0 <= i < |Schema| ==> Schema[i].name in h.props && h.props[Schema[i].name] == props[Schema[i].name])
      && (Exited in h.props <==> Exited in target)
  {
    Declared();
    HydrateExported(Owner, props, target, Schema, ExportNames);
    var ms := ExportProps(Owner, props, ExportNames).value;
    assert Export(props) == Ok(JObject(ms));
    assert forall i :: 0 <= i < |Schema| ==> Schema[i].name in ExportNames;
    AssignAllOthers(Owner, target, JObject(ms), Schema, Exited);
  }

  /** A container state object: its initialised typed properties. */
  class ContainerState {
    var props: map<string, Json>

    /** Every assigned property, `Exited` included, holds a value of its declared type. */
    ghost predicate Valid()
      reads this
    {
      WellTyped(props)
    }

    /** A new state has no initialised property. */
    constructor()
      ensures props == map[] && Valid()
    {
      props := map[];
    }

    /** `__fromArray`: the assignments of `Schema`, in order. */
    method FromArray(d: PhpArray) returns (failure: Option<Exception>)
      requires Valid()
      modifies this
      ensures Valid()
      ensures Hydration(props, failure) == AssignAll(Owner, old(props), d, Schema)
    {
      Declared();
      AssignAllTyped(Owner, props, d, Schema, 0);
      AssignAllOthers(Owner, props, d, Schema, Exited);
      var h := AssignAll(Owner, props, d, Schema);
      props := h.props;
      failure := h.failure;
    }

    /** `__fromJson`: decode as associative arrays and hydrate from the
        `State` member, which `__fromArray`'s parameter type requires to be an
        array. A decoded string fails at the read itself: `'State'` is not
        an integer string offset. */
    method FromJson(json: string, codec: Codec) returns (failure: Option<Exception>)
      requires Valid()
      modifies this
      ensures Valid()
      ensures codec.jsonDecode(json).JString? ==> props == old(props) && failure == Some(StringOffset)
      ensures !codec.jsonDecode(json).JString? ==>
        var arg := Read(codec.jsonDecode(json), "State");
        if arg.IsArray() then Hydration(props, failure) == AssignAll(Owner, old(props), arg, Schema)
        else props == old(props) && failure == Some(NotAnArray)
    {
      var data := codec.jsonDecode(json);
      if data.JString? {
        return Some(StringOffset);
      }
      var arg := Read(data, "State");
      if !arg.IsArray() {
        return Some(NotAnArray);
      }
      failure := FromArray(arg);
    }

    /** `$state->Exited = $exited`: the public property written by a caller. */
    method AssignExited(exited: bool)
      requires Valid()
      modifies this
      ensures Valid()
      ensures props == old(props)[Exited := JBool(exited)]
    {
      Declared();
      props := props[Exited := JBool(exited)];
    }

    function ToArray(): (r: Result<PhpArray>)
      reads this
      ensures r.Ok? <==> forall i :: 0 <= i < |ExportNames| ==> ExportNames[i] in props
      ensures r.Ok? ==> r.value.JObject? && |r.value.members| == 13
      ensures r.Ok? ==> forall i :: 0 <= i < |ExportNames| ==> r.value.members[i] == (ExportNames[i], props[ExportNames[i]])
      ensures Exited !in props ==> r.Err?
    {
      assert ExportNames[12] == Exited;
      Export(props)
    }

    function ToString(): (r: Result<string>)
      reads this
      ensures "Status" !in props ==> r.Err?
      ensures "Status" in props && props["Status"].JString? ==> r == Ok(props["Status"].s)
    {
      Describe(props)
    }
  }
}
