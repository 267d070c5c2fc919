/** A podman container as the `Container` class holds it: twelve typed
    properties hydrated from `podman inspect` output, a `ContainerState`
    object, and a `NetworkSettings` object that the class keeps in a
    property it never declares. */
module Containers {
  import opened Failures
  import opened JsonValues
  import opened TypedProperties
  import opened Externals
  import CS = ContainerStates
  import NS = NetSettings
  import PhpStrings

  const Owner: string := "Container"

  /** The scalar assignments of `Container::__fromArray`, in order. */
  const Schema: seq<Prop> := [
    Prop("Id", Str, Required),
    Prop("Created", Str, Required),
    Prop("Path", Str, Required),
    Prop("Args", Arr, Required),
    Prop("Mounts", Arr, Defaulted(JList([]))),
    Prop("Image", Str, Defaulted(JString(""))),
    Prop("ImageID", Str, Defaulted(JString(""))),
    Prop("ImageName", Str, Defaulted(JString(""))),
    Prop("Name", Str, Defaulted(JString(""))),
    Prop("RestartCount", Int, Defaulted(JInt(0))),
    Prop("RootFs", Str, Defaulted(JString(""))),
    Prop("Pod", Str, Defaulted(JString("")))
  ]

  /** The scalar keys of `Container::__toArray`, in order: `Mounts` is not among them. */
  const ExportNames: seq<string> := [
    "Id", "Created", "Path", "Args", "Image", "ImageID", "ImageName", "Name", "RestartCount", "RootFs", "Pod"
  ]

  /** The names of `Schema`, in order. */
  const ScalarNames: seq<string> := [
    "Id", "Created", "Path", "Args", "Mounts", "Image", "ImageID", "ImageName", "Name", "RestartCount", "RootFs", "Pod"
  ]

  const State: string := "State"
  const Settings: string := "NetworkSettings"

  /** The declarations are well formed; `__toArray` exports every scalar but
      `Mounts`, then `State`. */
  lemma Declared()
    ensures WellDeclared(Schema) && Distinct(ExportNames + [State])
    ensures forall i :: 0 <= i < |ExportNames| ==> ExportNames[i] in Names(Schema)
    ensures forall i :: 0 <= i < |Schema| && Schema[i].name !in ExportNames ==> Schema[i].source.Defaulted?
    ensures State !in Names(Schema) && Settings !in ExportNames + [State]
  {
    SchemaDeclared();
    DistinctNames();
    OtherNames();
    SchemaNames();
    ExportedScalars();
  }

  lemma SchemaDeclared()
    ensures WellDeclared(Schema)
  {
    SchemaNames();
    DistinctNames();
    Defaults();
  }

  lemma Defaults()
    ensures DefaultsTyped(Schema)
  {
  }

  lemma ExportedScalars()
    ensures forall i :: 0 <= i < |ExportNames| ==> ExportNames[i] in ScalarNames
    ensures forall i :: 0 <= i < |Schema| && i != 4 ==> Schema[i].name in ExportNames
    ensures Schema[4].source.Defaulted?
  {
    assert forall i :: 0 <= i < 4 ==> ExportNames[i] == ScalarNames[i] && ScalarNames[i] == Schema[i].name;
    assert forall i :: 5 <= i < 12 ==> ExportNames[i - 1] == ScalarNames[i] && ScalarNames[i] == Schema[i].name;
  }

  lemma SchemaNames()
    ensures Names(Schema) == ScalarNames
  {
  }

  lemma DistinctNames()
    ensures Distinct(ScalarNames) && Distinct(ExportNames + [State])
  {
  }

  lemma OtherNames()
    ensures State !in ScalarNames && Settings !in ExportNames + [State]
  {
  }

  /** `__toArray`: the eleven scalar properties in order, then the state's
      own export under `State`. `state` is None while the typed property
      `State` was never assigned. */
  function Export(props: map<string, Json>, state: Option<map<string, Json>>): (r: Result<PhpArray>)
    ensures r.Ok? <==>
      ((forall i :: 0 <= i < |ExportNames| ==> ExportNames[i] in props) && state.Some? && CS.Export(state.value).Ok?)
    ensures r.Ok? ==>
      (&& r.value.JObject? && |r.value.members| == 12
       && (forall i :: 0 <= i < 11 ==> r.value.members[i] == (ExportNames[i], props[ExportNames[i]]))
       && r.value.members[11] == (State, CS.Export(state.value).value))
    ensures (forall i :: 0 <= i < |ExportNames| ==> ExportNames[i] in props) && state.None? ==>
      r == Err(Uninitialized(Context(Owner, State)))
    ensures (forall i :: 0 <= i < |ExportNames| ==> ExportNames[i] in props) && state.Some? && CS.Export(state.value).Err? ==>
      r == CS.Export(state.value)
  {
    var ms :- ExportProps(Owner, props, ExportNames);
    if state.None? then Err(Uninitialized(Context(Owner, State)))
    else
      var s :- CS.Export(state.value);
      Ok(JObject(ms + [(State, s)]))
  }

  /** `__toString`: the `Id` property. */
  function Describe(props: map<string, Json>): (r: Result<string>)
    ensures "Id" !in props ==> r == Err(Uninitialized(Context(Owner, "Id")))
    ensures props.Keys >= {"Id"} && props["Id"].JString? ==> r == Ok(props["Id"].s)
  {
    if "Id" in props then Ok(StringOf(props["Id"])) else Err(Uninitialized(Context(Owner, "Id")))
  }

  /** The error of passing a non-array to `Container::__fromArray`. */
  const NotAnArray: Exception := TypeError("Container::__fromArray(): Argument #1 ($data) must be of type array")

  /** What `load` throws when `podman inspect` fails. */
  const NotInspectable: Exception := ContainerNotFoundException("Container not inspect-able")

  /** The command line `load` runs. */
  function InspectCommand(name: string): (c: seq<string>)
    ensures |c| == 5 && c[0] == PodmanBinary && c[|c| - 1] == name
  {
    [PodmanBinary, "inspect", "--type", "container", name]
  }

  /** The argument `__fromJson` passes on: element 0 of a decoded array
      (null when it has none), anything else as decoded. */
  function JsonArgument(decoded: Json): (r: Json)
    ensures decoded.JList? && decoded.items != [] ==> r == decoded.items[0]
    ensures decoded.JList? && decoded.items == [] ==> r == JNull
    ensures !decoded.IsArray() ==> r == decoded
  {
    assert PhpStrings.DigitsValue("0") == 0;
    if decoded.IsArray() then Read(decoded, "0") else decoded
  }

  /** The outcome of `__fromArray`: the scalar properties, the properties of
      the state and network-settings objects it created (None where it
      created none, so the previous object stays), and the exception that
      stopped it. */
  datatype Loaded = Loaded(
    props: map<string, Json>,
    state: Option<map<string, Json>>,
    settings: Option<map<string, Json>>,
    failure: Option<Exception>)

  /** `__fromArray` on values: the scalar assignments; then a new state object
      is stored before its argument `$data['State']` is checked and hydrated;
      then likewise the network settings from `$data['NetworkSettings']`. */
  function Hydrate(props: map<string, Json>, d: PhpArray): (l: Loaded)
    ensures l.failure.None? ==> l.state.Some? && l.settings.Some?
    ensures l.settings.Some? ==> l.state.Some?
  {
    var h := AssignAll(Owner, props, d, Schema);
    if h.failure.Some? then Loaded(h.props, None, None, h.failure) else HydrateObjects(h.props, d)
  }

  /** The second part of `__fromArray`, once the scalars are assigned: a new
      state from `$data['State']`, then new network settings from
      `$data['NetworkSettings']` if the state hydrated. */
  function HydrateObjects(props: map<string, Json>, d: PhpArray): (l: Loaded)
    ensures l.props == props && l.state.Some?
    ensures l.failure.None? ==> l.settings.Some?
  {
    var s := CS.Fresh(Read(d, State));
    if s.failure.Some? then Loaded(props, Some(s.props), None, s.failure)
    else
      var n := NS.Fresh(Read(d, Settings));
      Loaded(props, Some(s.props), Some(n.props), n.failure)
  }

  /** Hydration succeeds exactly when the scalar keys conform, `State` holds
      an array that a state hydrates from, and `NetworkSettings` holds an
      array that network settings hydrate from. */
  lemma HydrateSucceedsIff(props: map<string, Json>, d: PhpArray)
    ensures Hydrate(props, d).failure.None? <==>
      && Conforms(Owner, d, Schema)
      && Read(d, State).IsArray() && Conforms(CS.Owner, Read(d, State), CS.Schema)
      && Read(d, Settings).IsArray() && Conforms(NS.Owner, Read(d, Settings), NS.Schema)
  {
    AssignAllFailure(Owner, props, d, Schema);
    if Read(d, State).IsArray() {
      AssignAllFailure(CS.Owner, map[], Read(d, State), CS.Schema);
    }
    if Read(d, Settings).IsArray() {
      AssignAllFailure(NS.Owner, map[], Read(d, Settings), NS.Schema);
    }
  }

  /** The order of the failures: a rejected scalar leaves both objects as
      they were; once the scalars are assigned a new state is stored whatever
      `State` holds, and a non-array there fails with the state left empty;
      the network settings are replaced only after the state hydrated. */
  lemma HydrateOrder(props: map<string, Json>, d: PhpArray)
    ensures var l := Hydrate(props, d);
      && (!Conforms(Owner, d, Schema) ==> l.state.None? && l.settings.None? && l.failure.Some?)
      && (Conforms(Owner, d, Schema) ==> l.state.Some?)
      && (Conforms(Owner, d, Schema) && !Read(d, State).IsArray() ==>
            l.state == Some(map[]) && l.settings.None? && l.failure == Some(CS.NotAnArray))
      && (l.settings.Some? ==> l.state.Some? && Read(d, State).IsArray() && Conforms(CS.Owner, Read(d, State), CS.Schema))
  {
    AssignAllFailure(Owner, props, d, Schema);
    if Read(d, State).IsArray() {
      AssignAllFailure(CS.Owner, map[], Read(d, State), CS.Schema);
    }
  }

  /** After the scalar assignments succeed, `Id`, `Created`, `Path` and
      `Args` hold their (required) input values and every other scalar its
      input value or its default. */
  lemma HydratedScalars(props: map<string, Json>, d: PhpArray)
    requires Conforms(Owner, d, Schema)
    ensures var l := Hydrate(props, d);
      forall i :: 0 <= i < |Schema| ==> Schema[i].name in l.props && l.props[Schema[i].name] == ReadProp(Owner, d, Schema[i]).value
  {
    Declared();
    AssignAllFailure(Owner, props, d, Schema);
    AssignAllValues(Owner, props, d, Schema);
  }

  /** A successfully hydrated container cannot be exported: its new state
      object never had `Exited` assigned. */
  lemma ExportAfterHydrateFails(props: map<string, Json>, d: PhpArray)
    requires Hydrate(props, d).failure.None?
    ensures var l := Hydrate(props, d);
      Export(l.props, l.state) == Err(Uninitialized(Context(CS.Owner, CS.Exited)))
  {
    HydratedPrefix(props, d);
    HydratedNames(props, d);
    CS.FreshExportFails(Read(d, State));
    var l := Hydrate(props, d);
    assert l.props == AssignAll(Owner, props, d, Schema).props && l.state == Some(CS.Fresh(Read(d, State)).props);
    ExportOfFailingState(l.props, l.state.value);
  }

  /** A successful hydration has assigned the scalars and hydrated a state. */
  lemma HydratedPrefix(props: map<string, Json>, d: PhpArray)
    requires Hydrate(props, d).failure.None?
    ensures AssignAll(Owner, props, d, Schema).failure.None? && CS.Fresh(Read(d, State)).failure.None?
  {
  }

  /** Once the scalar assignments succeed, every exported scalar is assigned. */
  lemma HydratedNames(props: map<string, Json>, d: PhpArray)
    requires AssignAll(Owner, props, d, Schema).failure.None?
    ensures forall i :: 0 <= i < |ExportNames| ==> ExportNames[i] in AssignAll(Owner, props, d, Schema).props
  {
    SchemaDeclared();
    AssignAllFailure(Owner, props, d, Schema);
    AssignAllValues(Owner, props, d, Schema);
    ExportIndexed();
  }

  /** Where each exported scalar sits among the declarations. */
  function ExportIndex(i: nat): nat {
    if i < 4 then i else i + 1
  }

  lemma ExportIndexed()
    ensures forall i :: 0 <= i < |ExportNames| ==> ExportIndex(i) < |Schema| && ExportNames[i] == Schema[ExportIndex(i)].name
  {
  }

  /** With every scalar assigned, the export fails as the state's does. */
  lemma ExportOfFailingState(props: map<string, Json>, s: map<string, Json>)
    requires forall i :: 0 <= i < |ExportNames| ==> ExportNames[i] in props
    requires CS.Export(s).Err?
    ensures Export(props, Some(s)) == CS.Export(s)
  {
  }

  /** The export of a container with every scalar and a complete state, as a
      property export over `ExportNames` and `State`. */
  lemma ExportMembers(props: map<string, Json>, state: map<string, Json>)
    requires forall i :: 0 <= i < |ExportNames| ==> ExportNames[i] in props
    requires CS.Export(state).Ok?
    ensures var wide := props[State := CS.Export(state).value];
      && ExportProps(Owner, wide, ExportNames + [State]).Ok?
      && Export(props, Some(state)) == Ok(JObject(ExportProps(Owner, wide, ExportNames + [State]).value))
  {
    Declared();
    var s := CS.Export(state).value;
    var ms := ExportProps(Owner, props, ExportNames).value;
    var wide := props[State := s];
    ExportPropsSnoc(Owner, wide, ExportNames, State);
    assert ExportProps(Owner, wide, ExportNames).value == ms;
  }

  /** In such an export `State` holds the state's export and there is no
      `NetworkSettings`. */
  lemma ExportedObjects(wide: map<string, Json>)
    requires State in wide && ExportProps(Owner, wide, ExportNames + [State]).Ok?
    ensures var d := JObject(ExportProps(Owner, wide, ExportNames + [State]).value);
      Read(d, State) == wide[State] && Read(d, Settings) == JNull
  {
    Declared();
    var names := ExportNames + [State];
    var ms := ExportProps(Owner, wide, names).value;
    assert forall j :: 0 <= j < 12 ==> ms[j].0 == names[j];
    assert forall j :: 0 <= j < 11 ==> ms[j].0 != ms[11].0;
    LookupAt(ms, 11);
  }

  /** A container with every scalar assigned, holding a state with every
      property (`Exited` included) assigned. */
  predicate Complete(props: map<string, Json>, state: map<string, Json>) {
    && Typed(props, Schema) && (forall i :: 0 <= i < |Schema| ==> Schema[i].name in props)
    && CS.WellTyped(state) && CS.Exited in state && (forall i :: 0 <= i < |CS.Schema| ==> CS.Schema[i].name in state)
  }

  /** A complete container exports, and hydrating from its export assigns
      the scalars and goes on to the state and network settings, which it
      finds as the state's export and as null. */
  lemma RoundTripSetup(props: map<string, Json>, state: map<string, Json>, target: map<string, Json>)
    requires Complete(props, state)
    ensures Export(props, Some(state)).Ok?
    ensures var d := Export(props, Some(state)).value;
      var h := AssignAll(Owner, target, d, Schema);
      && h.failure.None?
      && (forall i :: 0 <= i < |Schema| && i != 4 ==> Schema[i].name in h.props && h.props[Schema[i].name] == props[Schema[i].name])
      && "Mounts" in h.props && h.props["Mounts"] == JList([])
      && Read(d, State) == CS.Export(state).value && Read(d, Settings) == JNull
  {
    CS.RoundTrip(state, map[]);
    var s := CS.Export(state).value;
    var wide := props[State := s];
    WithState(props, s);
    ExportMembers(props, state);
    ExportedObjects(wide);
    ScalarsFromExport(wide, target);
  }

  /** Storing the state's export under `State` keeps the scalars. */
  lemma WithState(props: map<string, Json>, s: Json)
    requires Typed(props, Schema) && forall i :: 0 <= i < |Schema| ==> Schema[i].name in props
    ensures var wide := props[State := s];
      && Typed(wide, Schema) && State in wide
      && (forall i :: 0 <= i < |Schema| ==> Schema[i].name in wide && wide[Schema[i].name] == props[Schema[i].name])
      && (forall i :: 0 <= i < |ExportNames| ==> ExportNames[i] in props)
  {
    SchemaNames();
    OtherNames();
    ExportedScalars();
  }

  /** Hydrating from a property export over `ExportNames` and `State`
      assigns every exported scalar its exported value and `Mounts` its
      default. */
  lemma ScalarsFromExport(wide: map<string, Json>, target: map<string, Json>)
    requires Typed(wide, Schema) && State in wide && forall i :: 0 <= i < |Schema| ==> Schema[i].name in wide
    ensures ExportProps(Owner, wide, ExportNames + [State]).Ok?
    ensures var h := AssignAll(Owner, target, JObject(ExportProps(Owner, wide, ExportNames + [State]).value), Schema);
      && h.failure.None?
      && (forall i :: 0 <= i < |Schema| && i != 4 ==> Schema[i].name in h.props && h.props[Schema[i].name] == wide[Schema[i].name])
      && "Mounts" in h.props && h.props["Mounts"] == JList([])
  {
    ExportShape();
    ExportedPresent(wide);
    HydrateExported(Owner, wide, target, Schema, ExportNames + [State]);
  }

  /** What exporting over `ExportNames` and `State` means for the
      declarations: each scalar but `Mounts` (the fifth) is exported, and
      only defaulted ones are not. */
  lemma ExportShape()
    ensures WellDeclared(Schema) && Distinct(ExportNames + [State])
    ensures forall i :: 0 <= i < |Schema| && Schema[i].name !in ExportNames + [State] ==> Schema[i].source.Defaulted?
    ensures forall i :: 0 <= i < |Schema| && i != 4 ==> Schema[i].name in ExportNames + [State]
    ensures Schema[4].name == "Mounts" && "Mounts" !in ExportNames + [State] && Schema[4].source.fallback == JList([])
  {
    Declared();
    ExportedScalars();
  }

  /** A container with every scalar and `State` assigned has every exported name. */
  lemma ExportedPresent(wide: map<string, Json>)
    requires State in wide && forall i :: 0 <= i < |Schema| ==> Schema[i].name in wide
    ensures forall j :: 0 <= j < |ExportNames + [State]| ==> (ExportNames + [State])[j] in wide
  {
    Declared();
    SchemaNames();
  }

  /** Exporting a complete container and hydrating any container from the
      export brings back the eleven exported scalars and defaults `Mounts`. */
  lemma RoundTripScalars(props: map<string, Json>, state: map<string, Json>, target: map<string, Json>)
    requires Complete(props, state)
    ensures Export(props, Some(state)).Ok?
    ensures var l := Hydrate(target, Export(props, Some(state)).value);
      && (forall i :: 0 <= i < |Schema| && i != 4 ==> Schema[i].name in l.props && l.props[Schema[i].name] == props[Schema[i].name])
      && "Mounts" in l.props && l.props["Mounts"] == JList([])
  {
    RoundTripSetup(props, state, target);
  }

  /** ... and a new state with the twelve hydrated properties of the
      original, after which hydration fails: the export has no
      `NetworkSettings`. */
  lemma RoundTripObjects(props: map<string, Json>, state: map<string, Json>, target: map<string, Json>)
    requires Complete(props, state)
    ensures Export(props, Some(state)).Ok?
    ensures var l := Hydrate(target, Export(props, Some(state)).value);
      && l.state.Some?
      && (forall i :: 0 <= i < |CS.Schema| ==> CS.Schema[i].name in l.state.value && l.state.value[CS.Schema[i].name] == state[CS.Schema[i].name])
      && l.settings == Some(map[])
      && l.failure == Some(NS.NotAnArray)
  {
    RoundTripSetup(props, state, target);
    CS.RoundTrip(state, map[]);
  }

  /** A container object: its typed properties, its `State` object (null
      while never assigned) and its undeclared `NetworkSettings` property
      (null while never assigned). */
  class Container {
    var props: map<string, Json>
    var state: CS.ContainerState?
    var networkSettings: NS.NetworkSettings?

    /** Every assigned property holds a value of its declared type, and so do
        those of the objects it holds. */
    ghost predicate Valid()
      reads this, state, networkSettings
    {
      && Typed(props, Schema)
      && (state != null ==> state.Valid())
      && (networkSettings != null ==> networkSettings.Valid())
    }

    /** A new container has no initialised property and no objects. */
    constructor()
      ensures props == map[] && state == null && networkSettings == null && Valid()
    {
      props := map[];
      state := null;
      networkSettings := null;
    }

    /** `__fromArray`, as `Hydrate` describes it on values. */
    method FromArray(d: PhpArray) returns (failure: Option<Exception>)
      requires Valid()
      modifies this
      ensures Valid()
      ensures var l := Hydrate(old(props), d);
        && props == l.props && failure == l.failure
        && (if l.state.Some? then state != null && fresh(state) && state.props == l.state.value else state == old(state))
        && (if l.settings.Some? then networkSettings != null && fresh(networkSettings) && networkSettings.props == l.settings.value
            else networkSettings == old(networkSettings))
    {
      SchemaDeclared();
      AssignAllTyped(Owner, props, d, Schema, 0);
      assert Schema[0..] == Schema;
      var h := AssignAll(Owner, props, d, Schema);
      props := h.props;
      if h.failure.Some? {
        return h.failure;
      }
      failure := AssignObjects(d);
    }

    /** The second part of `__fromArray`, as `HydrateObjects` describes it. */
    method AssignObjects(d: PhpArray) returns (failure: Option<Exception>)
      requires Valid()
      modifies this
      ensures Valid()
      ensures var l := HydrateObjects(old(props), d);
        && props == l.props && failure == l.failure
        && state != null && fresh(state) && state.props == l.state.value
        && (if l.settings.Some? then networkSettings != null && fresh(networkSettings) && networkSettings.props == l.settings.value
            else networkSettings == old(networkSettings))
    {
      failure := AssignState(Read(d, State));
      if failure.Some? {
        return;
      }
      failure := AssignSettings(Read(d, Settings));
    }

    /** `$this->State = new ContainerState(); $this->State->__fromArray(arg)`. */
    method AssignState(arg: Json) returns (failure: Option<Exception>)
      requires Valid()
      modifies this
      ensures Valid()
      ensures state != null && fresh(state) && Hydration(state.props, failure) == CS.Fresh(arg)
      ensures props == old(props) && networkSettings == old(networkSettings)
    {
      var st := new CS.ContainerState();
      state := st;
      if !arg.IsArray() {
        return Some(CS.NotAnArray);
      }
      failure := st.FromArray(arg);
    }

    /** `$this->NetworkSettings = new NetworkSettings(); $this->NetworkSettings->__fromArray(arg)`. */
    method AssignSettings(arg: Json) returns (failure: Option<Exception>)
      requires Valid()
      modifies this
      ensures Valid()
      ensures networkSettings != null && fresh(networkSettings) && Hydration(networkSettings.props, failure) == NS.Fresh(arg)
      ensures props == old(props) && state == old(state)
    {
      var ns := new NS.NetworkSettings();
      networkSettings := ns;
      if !arg.IsArray() {
        return Some(NS.NotAnArray);
      }
      failure := ns.FromArray(arg);
    }

    /** `__fromJson`: decode as associative arrays, take element 0 of an
        array, and hydrate from it; a non-array is rejected by the parameter
        type of `__fromArray` before anything is assigned. */
    method FromJson(json: string, codec: Codec) returns (failure: Option<Exception>)
      requires Valid()
      modifies this
      ensures Valid()
      ensures var arg := JsonArgument(codec.jsonDecode(json));
        if arg.IsArray() then
          var l := Hydrate(old(props), arg);
          && props == l.props && failure == l.failure
          && (if l.state.Some? then state != null && fresh(state) && state.props == l.state.value else state == old(state))
          && (if l.settings.Some? then networkSettings != null && fresh(networkSettings) && networkSettings.props == l.settings.value
              else networkSettings == old(networkSettings))
        else props == old(props) && state == old(state) && networkSettings == old(networkSettings) && failure == Some(NotAnArray)
    {
      var arg := JsonArgument(codec.jsonDecode(json));
      if !arg.IsArray() {
        return Some(NotAnArray);
      }
      failure := FromArray(arg);
    }

    /** `load`: inspect the container; a failed inspection throws
        `ContainerNotFoundException` and changes nothing, a successful one
        hydrates from its output. */
    method Load(name: string, run: Runner, codec: Codec) returns (failure: Option<Exception>)
      requires Valid()
      modifies this
      ensures Valid()
      ensures !run(InspectCommand(name)).successful ==>
        failure == Some(NotInspectable) && props == old(props) && state == old(state) && networkSettings == old(networkSettings)
      ensures run(InspectCommand(name)).successful ==>
        var arg := JsonArgument(codec.jsonDecode(run(InspectCommand(name)).output));
        if arg.IsArray() then
          var l := Hydrate(old(props), arg);
          && props == l.props && failure == l.failure
          && (if l.state.Some? then state != null && fresh(state) && state.props == l.state.value else state == old(state))
          && (if l.settings.Some? then networkSettings != null && fresh(networkSettings) && networkSettings.props == l.settings.value
              else networkSettings == old(networkSettings))
        else props == old(props) && state == old(state) && networkSettings == old(networkSettings) && failure == Some(NotAnArray)
    {
      var outcome := run(InspectCommand(name));
      if !outcome.successful {
        return Some(NotInspectable);
      }
      failure := FromJson(outcome.output, codec);
    }

    /** Fails while `State` was never assigned; otherwise the state's own
        export is the last member. */
    function ToArray(): (r: Result<PhpArray>)
      reads this, state
      ensures state == null ==> r.Err?
      ensures r.Ok? <==>
        ((forall i :: 0 <= i < |ExportNames| ==> ExportNames[i] in props) && state != null && CS.Export(state.props).Ok?)
      ensures r.Ok? ==>
        (&& state != null && r.value.JObject? && |r.value.members| == 12
         && (forall i :: 0 <= i < 11 ==> r.value.members[i] == (ExportNames[i], props[ExportNames[i]]))
         && CS.Export(state.props).Ok? && r.value.members[11] == (State, CS.Export(state.props).value))
    {
      Export(props, if state == null then None else Some(state.props))
    }

    function ToString(): (r: Result<string>)
      reads this
      ensures "Id" !in props ==> r.Err?
      ensures "Id" in props && props["Id"].JString? ==> r == Ok(props["Id"].s)
    {
      Describe(props)
    }
  }
}
