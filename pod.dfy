/** A podman pod as the `Pod` class holds it: twelve typed properties, each
    hydrated from a key of `podman pod inspect` output or from its default,
    and exported again by `__toArray`. */
module Pods {
  import opened Failures
  import opened JsonValues
  import opened TypedProperties
  import opened Externals

  const Owner: string := "Pod"

  /** The assignments of `Pod::__fromArray`, in order; every key has a default. */
  const Schema: seq<Prop> := [
    Prop("Id", Str, Defaulted(JString(""))),
    Prop("Name", Str, Defaulted(JString(""))),
    Prop("Created", Str, Defaulted(JString(""))),
    Prop("ExitPolicy", Str, Defaulted(JString(""))),
    Prop("State", Str, Defaulted(JString(""))),
    Prop("Hostname", Str, Defaulted(JString(""))),
    Prop("CreateCgroup", Bool, Defaulted(JBool(false))),
    Prop("CgroupPath", Str, Defaulted(JString(""))),
    Prop("CreateInfra", Bool, Defaulted(JBool(false))),
    Prop("InfraContainerId", Str, Defaulted(JString(""))),
    Prop("NumContainers", Int, Defaulted(JInt(0))),
    Prop("Containers", Arr, Defaulted(JList([])))
  ]

  /** The keys of `Pod::__toArray`, in order. */
  const ExportNames: seq<string> := [
    "Id", "Name", "Created", "ExitPolicy", "State", "Hostname", "CreateCgroup",
    "CgroupPath", "CreateInfra", "InfraContainerId", "NumContainers", "Containers"
  ]

  /** The declarations are well formed, and `__toArray` exports exactly the
      hydrated properties, in the same order. */
  lemma Declared()
    ensures WellDeclared(Schema) && AllDefaulted(Schema) && Distinct(ExportNames)
    ensures ExportNames == Names(Schema)
  {
    ExportedNames();
    DistinctNames();
    Defaults();
  }

  lemma ExportedNames()
    ensures ExportNames == Names(Schema)
  {
  }

  lemma DistinctNames()
    ensures Distinct(ExportNames)
  {
  }

  lemma Defaults()
    ensures DefaultsTyped(Schema) && AllDefaulted(Schema)
  {
  }

  /** `__toArray` over the current properties. */
  function Export(props: map<string, Json>): (r: Result<PhpArray>)
    ensures r.Ok? <==> forall i :: 0 <= i < |ExportNames| ==> ExportNames[i] in props
    ensures r.Ok? ==> r.value.JObject? && |r.value.members| == 12
    ensures r.Ok? ==> forall i :: 0 <= i < 12 ==> r.value.members[i] == (ExportNames[i], props[ExportNames[i]])
  {
    var ms :- ExportProps(Owner, props, ExportNames);
    Ok(JObject(ms))
  }

  /** `__toString`: the `Name` property. */
  function Describe(props: map<string, Json>): (r: Result<string>)
    ensures "Name" !in props ==> r == Err(Uninitialized(Context(Owner, "Name")))
    ensures props.Keys >= {"Name"} && props["Name"].JString? ==> r == Ok(props["Name"].s)
  {
    if "Name" in props then Ok(StringOf(props["Name"])) else Err(Uninitialized(Context(Owner, "Name")))
  }

  /** The error of passing a non-array to `Pod::__fromArray`. */
  const NotAnArray: Exception := TypeError("Pod::__fromArray(): Argument #1 ($data) must be of type array")

  /** Missing keys never make hydration fail: it fails only on a present
      value that a property's type rejects. */
  lemma HydrationFailsOnlyOnRejectedValue(props: map<string, Json>, d: PhpArray)
    ensures AssignAll(Owner, props, d, Schema).failure.Some? <==>
      exists i :: 0 <= i < |Schema| && Get(d, Schema[i].name).Some?
        && Coerce(Schema[i].kind, Get(d, Schema[i].name).value, Context(Owner, Schema[i].name)).Err?
  {
    Defaults();
    HydrateDefaulted(Owner, props, d, Schema);
  }

  /** Exporting right after hydration gives, for each of the twelve keys in
      order, the value hydration read for it: the input's value when present
      (verbatim when it already has the property's type, so `Containers`
      keeps its order) and the default otherwise. */
  lemma ExportAfterHydrate(props: map<string, Json>, d: PhpArray)
    requires Conforms(Owner, d, Schema)
    ensures var r := Export(AssignAll(Owner, props, d, Schema).props);
      && r.Ok? && |r.value.members| == 12
      && forall i :: 0 <= i < 12 ==> r.value.members[i] == (Schema[i].name, ReadProp(Owner, d, Schema[i]).value)
  {
    Declared();
    var h := AssignAll(Owner, props, d, Schema);
    ExportAllAssigned(Owner, props, d, Schema);
    var ms := ExportProps(Owner, h.props, ExportNames).value;
    assert Export(h.props) == Ok(JObject(ms));
  }

  /** Hydrating any pod object from the export of a hydrated pod reproduces
      it property for property. */
  lemma RoundTrip(props: map<string, Json>, target: map<string, Json>)
    requires Typed(props, Schema)
    requires forall i :: 0 <= i < |Schema| ==> Schema[i].name in props
    ensures Export(props).Ok?
    ensures var h := AssignAll(Owner, target, Export(props).value, Schema);
      && h.failure.None?
      && forall i :: 0 <= i < |Schema| ==> Schema[i].name in h.props && h.props[Schema[i].name] == props[Schema[i].name]
  {
    Declared();
    HydrateExportedAll(Owner, props, target, Schema);
    assert Export(props) == Ok(JObject(ExportProps(Owner, props, ExportNames).value));
  }

  /** Unlike `Container`, `Pod::__fromJson` does not unwrap a list: a list
      has none of the pod's keys, so every property takes its default. */
  lemma ListHydratesToDefaults(props: map<string, Json>, items: seq<Json>)
    ensures var h := AssignAll(Owner, props, JList(items), Schema);
      && h.failure.None?
      && forall i :: 0 <= i < |Schema| ==> Schema[i].name in h.props && h.props[Schema[i].name] == Absent(Schema[i])
  {
    Declared();
    NoIndexNames();
    HydrateAbsent(Owner, props, JList(items), Schema);
  }

  /** No property name is an integer key. */
  lemma NoIndexNames()
    ensures forall i :: 0 <= i < |Schema| ==> !IsIndexKey(Schema[i].name)
  {
    ExportedNames();
    assert forall i :: 0 <= i < |ExportNames| ==> 'A' <= ExportNames[i][0] <= 'Z';
  }

  /** A pod object: its initialised typed properties. */
  class Pod {
    var props: map<string, Json>

    /** Every assigned property holds a value of its declared type. */
    ghost predicate Valid()
      reads this
    {
      Typed(props, Schema)
    }

    /** A new pod has no initialised property. */
    constructor()
      ensures props == map[] && Valid()
    {
      props := map[];
    }

    /** `__fromArray`: the assignments of `Schema`, in order. */
    method FromArray(d: PhpArray) returns (failure: Option<Exception>)
      requires Valid()
      modifies this
      ensures Valid()
      ensures Hydration(props, failure) == AssignAll(Owner, old(props), d, Schema)
    {
      Declared();
      AssignAllTyped(Owner, props, d, Schema, 0);
      var h := AssignAll(Owner, props, d, Schema);
      props := h.props;
      failure := h.failure;
    }

    /** `__fromJson`: decode as associative arrays and hydrate from the result
        as it is; a non-array is rejected by `__fromArray`'s parameter type. */
    method FromJson(json: string, codec: Codec) returns (failure: Option<Exception>)
      requires Valid()
      modifies this
      ensures Valid()
      ensures var data := codec.jsonDecode(json);
        if data.IsArray() then Hydration(props, failure) == AssignAll(Owner, old(props), data, Schema)
        else props == old(props) && failure == Some(NotAnArray)
    {
      var data := codec.jsonDecode(json);
      if !data.IsArray() {
        return Some(NotAnArray);
      }
      failure := FromArray(data);
    }

    function ToArray(): (r: Result<PhpArray>)
      reads this
      ensures r.Ok? <==> forall i :: 0 <= i < |ExportNames| ==> ExportNames[i] in props
      ensures r.Ok? ==> r.value.JObject? && |r.value.members| == 12
      ensures r.Ok? ==> forall i :: 0 <= i < |ExportNames| ==> r.value.members[i] == (ExportNames[i], props[ExportNames[i]])
    {
      Export(props)
    }

    function ToString(): (r: Result<string>)
      reads this
      ensures "Name" !in props ==> r.Err?
      ensures "Name" in props && props["Name"].JString? ==> r == Ok(props["Name"].s)
    {
      Describe(props)
    }
  }
}
