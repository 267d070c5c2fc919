/** The network settings of a container as `NetworkSettings` holds them:
    sixteen typed properties with defaults, hydrated from the
    `NetworkSettings` member of `podman inspect` output; `__toArray` exports
    all of them but `Networks`. */
module NetSettings {
  import opened Failures
  import opened JsonValues
  import opened TypedProperties
  import opened Externals

  const Owner: string := "NetworkSettings"

  /** The assignments of `NetworkSettings::__fromArray`, in order; every key has a default. */
  const Schema: seq<Prop> := [
    Prop("EndpointID", Str, Defaulted(JString(""))),
    Prop("Gateway", Str, Defaulted(JString(""))),
    Prop("IPAddress", Str, Defaulted(JString(""))),
    Prop("IPPrefixLen", Int, Defaulted(JInt(0))),
    Prop("IPv6Gateway", Str, Defaulted(JString(""))),
    Prop("GlobalIPv6Address", Str, Defaulted(JString(""))),
    Prop("GlobalIPv6PrefixLen", Int, Defaulted(JInt(0))),
    Prop("MacAddress", Str, Defaulted(JString(""))),
    Prop("Bridge", Str, Defaulted(JString(""))),
    Prop("SandBoxID", Str, Defaulted(JString(""))),
    Prop("HairpinMode", Bool, Defaulted(JBool(false))),
    Prop("Ports", Arr, Defaulted(JList([]))),
    Prop("LinkLocalIPv6Address", Str, Defaulted(JString(""))),
    Prop("LinkLocalIPv6PrefixLen", Int, Defaulted(JInt(0))),
    Prop("SandboxKey", Str, Defaulted(JString(""))),
    Prop("Networks", Arr, Defaulted(JList([])))
  ]

  /** The keys of `NetworkSettings::__toArray`, in order: `Networks` is not among them. */
  const ExportNames: seq<string> := [
    "EndpointID", "Gateway", "IPAddress", "IPPrefixLen", "IPv6Gateway", "GlobalIPv6Address",
    "GlobalIPv6PrefixLen", "MacAddress", "Bridge", "SandBoxID", "HairpinMode", "Ports",
    "LinkLocalIPv6Address", "LinkLocalIPv6PrefixLen", "SandboxKey"
  ]

  const Networks: string := "Networks"

  /** The declarations are well formed, and `__toArray` exports the first
      fifteen hydrated properties, in the same order. */
  lemma Declared()
    ensures WellDeclared(Schema) && AllDefaulted(Schema) && Distinct(ExportNames)
    ensures ExportNames + [Networks] == Names(Schema) && Networks !in ExportNames
  {
    ExportedNames();
    DistinctExports();
    Defaults();
    DistinctSnoc(ExportNames, Networks);
  }

  lemma ExportedNames()
    ensures ExportNames + [Networks] == Names(Schema)
  {
  }

  lemma DistinctExports()
    ensures Distinct(ExportNames) && Networks !in ExportNames
  {
    ExportsDistinct();
    NetworksNotExported();
  }

  lemma ExportsDistinct()
    ensures Distinct(ExportNames)
  {
  }

  lemma NetworksNotExported()
    ensures Networks !in ExportNames
  {
  }

  lemma Defaults()
    ensures DefaultsTyped(Schema) && AllDefaulted(Schema)
  {
  }

  /** `__toArray` over the current properties. */
  function Export(props: map<string, Json>): (r: Result<PhpArray>)
    ensures r.Ok? <==> forall i :: 0 <= i < |ExportNames| ==> ExportNames[i] in props
    ensures r.Ok? ==> r.value.JObject? && |r.value.members| == 15
    ensures r.Ok? ==> forall i :: 0 <= i < 15 ==> r.value.members[i] == (ExportNames[i], props[ExportNames[i]])
  {
    var ms :- ExportProps(Owner, props, ExportNames);
    Ok(JObject(ms))
  }

  /** `__toString`: the `IPAddress` property. */
  function Describe(props: map<string, Json>): (r: Result<string>)
    ensures "IPAddress" !in props ==> r == Err(Uninitialized(Context(Owner, "IPAddress")))
    ensures props.Keys >= {"IPAddress"} && props["IPAddress"].JString? ==> r == Ok(props["IPAddress"].s)
  {
    if "IPAddress" in props then Ok(StringOf(props["IPAddress"])) else Err(Uninitialized(Context(Owner, "IPAddress")))
  }

  /** The error of passing a non-array to `NetworkSettings::__fromArray`. */
  const NotAnArray: Exception := TypeError("NetworkSettings::__fromArray(): Argument #1 ($data) must be of type array")

  /** `new NetworkSettings()` followed by `__fromArray(arg)`: a non-array argument is
      rejected before anything is assigned. */
  function Fresh(arg: Json): (h: Hydration)
    ensures !arg.IsArray() ==> h == Hydration(map[], Some(NotAnArray))
  {
    if arg.IsArray() then AssignAll(Owner, map[], arg, Schema) else Hydration(map[], Some(NotAnArray))
  }

  /** The return type of `getNetwork` rejects what was read. */
  const GetNetworkReturn: Exception := TypeError("NetworkSettings::getNetwork(): Return value must be of type array")

  /** The return type of `ip` rejects what was read. */
  const IpReturn: Exception := TypeError("NetworkSettings::ip(): Return value must be of type string")

  /** `getNetwork`: the entry of `Networks` under `name`; a missing entry
      reads as null, which the `array` return type rejects like any other
      non-array. */
  function GetNetwork(props: map<string, Json>, name: string): (r: Result<PhpArray>)
    ensures Networks !in props ==> r == Err(Uninitialized(Context(Owner, Networks)))
    ensures Networks in props ==>
      (r.Ok? <==> At(props[Networks], name).Some? && At(props[Networks], name).value.IsArray())
    ensures r.Ok? ==> At(props[Networks], name) == Some(r.value)
    ensures r.Err? && Networks in props ==> r.error == GetNetworkReturn
  {
    if Networks !in props then Err(Uninitialized(Context(Owner, Networks)))
    else
      var entry := Read(props[Networks], name);
      if entry.IsArray() then Ok(entry) else Err(GetNetworkReturn)
  }

  /** `ip` as written. With no network named and a non-empty `IPAddress` it
      returns `IPAddress`. Otherwise it reads the property `IPAddress` of
      `Networks[network]`; that entry is an array (or null), never an
      object, so the read gives null, which the `string` return type
      rejects. */
  function IpAsWritten(props: map<string, Json>, network: string): (r: Result<string>)
    ensures r.Ok? <==> network == "" && "IPAddress" in props && props["IPAddress"] != JString("")
    ensures r.Ok? ==> r.value == StringOf(props["IPAddress"])
  {
    if network == "" && "IPAddress" !in props then Err(Uninitialized(Context(Owner, "IPAddress")))
    else if network == "" && props["IPAddress"] != JString("") then Ok(StringOf(props["IPAddress"]))
    else if Networks !in props then Err(Uninitialized(Context(Owner, Networks)))
    else Err(IpReturn)
  }

  /** `ip` as evidently intended: the `IPAddress` member of the array
      `Networks[network]`, converted as the `string` return type converts
      it; a missing or null member is a TypeError. */
  function Ip(props: map<string, Json>, network: string): (r: Result<string>)
    ensures network == "" && "IPAddress" in props && props["IPAddress"] != JString("") ==>
      r == Ok(StringOf(props["IPAddress"]))
    ensures (network != "" || ("IPAddress" in props && props["IPAddress"] == JString(""))) && Networks in props ==>
      (r.Ok? <==>
        var member := Get(Read(props[Networks], network), "IPAddress");
        member.Some? && Coerce(Str, member.value, "").Ok?)
    ensures (network != "" || ("IPAddress" in props && props["IPAddress"] == JString(""))) && Networks in props ==>
      var member := Get(Read(props[Networks], network), "IPAddress");
      member.Some? && member.value.JString? ==> r == Ok(member.value.s)
  {
    if network == "" && "IPAddress" !in props then Err(Uninitialized(Context(Owner, "IPAddress")))
    else if network == "" && props["IPAddress"] != JString("") then Ok(StringOf(props["IPAddress"]))
    else if Networks !in props then Err(Uninitialized(Context(Owner, Networks)))
    else
      match Get(Read(props[Networks], network), "IPAddress")
      case None => Err(IpReturn)
      case Some(x) =>
        match Coerce(Str, x, "")
        case Ok(s) => Ok(s.s)
        case Err(_) => Err(IpReturn)
  }

  /** Missing keys never make hydration fail: it fails only on a present
      value that a property's type rejects. */
  lemma HydrationFailsOnlyOnRejectedValue(props: map<string, Json>, d: PhpArray)
    ensures AssignAll(Owner, props, d, Schema).failure.Some? <==>
      exists i :: 0 <= i < |Schema| && Get(d, Schema[i].name).Some?
        && Coerce(Schema[i].kind, Get(d, Schema[i].name).value, Context(Owner, Schema[i].name)).Err?
  {
    Declared();
    HydrateDefaulted(Owner, props, d, Schema);
  }

  /** Exporting right after hydration gives, for each of the fifteen exported
      keys in order, the value hydration read for it. */
  lemma ExportAfterHydrate(props: map<string, Json>, d: PhpArray)
    requires Conforms(Owner, d, Schema)
    ensures var r := Export(AssignAll(Owner, props, d, Schema).props);
      && r.Ok? && |r.value.members| == 15
      && forall i :: 0 <= i < 15 ==> r.value.members[i] == (Schema[i].name, ReadProp(Owner, d, Schema[i]).value)
  {
    DistinctSchema();
    ExportedNames();
    PrefixOfSnoc(ExportNames, Networks, Names(Schema));
    ExportPrefixAssigned(Owner, props, d, Schema, 15);
  }

  lemma DistinctSchema()
    ensures Distinct(Names(Schema))
  {
    ExportedNames();
    DistinctExports();
    DistinctSnoc(ExportNames, Networks);
  }

  /** Hydrating from the export of hydrated settings reproduces the fifteen
      exported properties; `Networks`, which is not exported, comes back as
      the empty array. */
  lemma RoundTrip(props: map<string, Json>, target: map<string, Json>)
    requires Typed(props, Schema)
    requires forall i :: 0 <= i < |Schema| ==> Schema[i].name in props
    ensures Export(props).Ok?
    ensures var h := AssignAll(Owner, target, Export(props).value, Schema);
      && h.failure.None?
      && (forall i :: 0 <= i < 15 ==> Schema[i].name in h.props && h.props[Schema[i].name] == props[Schema[i].name])
      && Networks in h.props && h.props[Networks] == JList([])
  {
    DistinctSchema();
    Defaults();
    LastDeclared();
    assert forall j :: 0 <= j < 15 ==> ExportNames[j] == Schema[j].name;
    HydrateExportedButLast(Owner, props, target, Schema, ExportNames);
  }

  /** The discrepancy in `ip`: settings hydrated from
      `{"Networks": {network: {"IPAddress": address}}}`, for instance
      `{"Networks": {"podman": {"IPAddress": "10.88.0.2"}}}`, hold the address
      under that network, yet `ip(network)` as written fails, while the
      corrected reading returns it. */
  lemma IpAsWrittenMissesNetworkAddress(network: string, address: string)
    requires network != ""
    ensures var nets := JObject([(network, JObject([("IPAddress", JString(address))]))]);
      var h := AssignAll(Owner, map[], JObject([(Networks, nets)]), Schema);
      && h.failure.None?
      && IpAsWritten(h.props, network).Err?
      && Ip(h.props, network) == Ok(address)
  {
    var addr := JObject([("IPAddress", JString(address))]);
    var nets := JObject([(network, addr)]);
    assert Read(nets, network) == addr;
    assert Get(addr, "IPAddress") == Some(JString(address));
    IpOfNetworksOnly(nets, network, address);
  }

  /** An input holding nothing but an array under `Networks` hydrates, and
      `ip` finds an address stored in it. */
  lemma IpOfNetworksOnly(nets: PhpArray, network: string, address: string)
    requires network != ""
    requires Get(Read(nets, network), "IPAddress") == Some(JString(address))
    ensures var h := AssignAll(Owner, map[], JObject([(Networks, nets)]), Schema);
      h.failure.None? && Ip(h.props, network) == Ok(address)
  {
    NetworksOnlyHydrates(nets);
  }

  /** An input holding nothing but an array under `Networks` hydrates, and
      stores that array. */
  lemma NetworksOnlyHydrates(nets: PhpArray)
    ensures var h := AssignAll(Owner, map[], JObject([(Networks, nets)]), Schema);
      h.failure.None? && Networks in h.props && h.props[Networks] == nets
  {
    NetworksOnlySucceeds(nets);
    NetworksOnlyStored(nets);
  }

  lemma NetworksOnlySucceeds(nets: PhpArray)
    ensures AssignAll(Owner, map[], JObject([(Networks, nets)]), Schema).failure.None?
  {
    OnlyNetworksConforms(nets);
    ConformingSucceeds(Owner, map[], JObject([(Networks, nets)]), Schema);
  }

  lemma NetworksOnlyStored(nets: PhpArray)
    ensures var h := AssignAll(Owner, map[], JObject([(Networks, nets)]), Schema);
      Networks in h.props && h.props[Networks] == nets
  {
    var d: PhpArray := JObject([(Networks, nets)]);
    OnlyNetworksConforms(nets);
    assert Get(d, Networks) == Some(nets);
    NetworksHydrated(map[], d);
  }

  /** An input holding nothing but an array under `Networks` conforms. */
  lemma OnlyNetworksConforms(nets: PhpArray)
    ensures Conforms(Owner, JObject([(Networks, nets)]), Schema)
  {
    var d: PhpArray := JObject([(Networks, nets)]);
    Declared();
    assert Names(Schema)[15] == Networks;
    assert forall i :: 0 <= i < 15 ==> Schema[i].name != Networks by {
      assert forall i :: 0 <= i < 15 ==> Names(Schema)[i] != Names(Schema)[15];
    }
    assert forall k :: k != Networks ==> Get(d, k).None?;
    forall i | 0 <= i < |Schema| ensures ReadProp(Owner, d, Schema[i]).Ok? {
      if i == 15 {
        assert Get(d, Networks) == Some(nets);
      }
    }
  }

  /** `ip` as intended, on hydrated settings: a network whose entry holds an
      address string gives that address. */
  lemma IpOfHydratedNetwork(props: map<string, Json>, d: PhpArray, network: string, address: string)
    requires Conforms(Owner, d, Schema)
    requires network != ""
    requires Get(d, Networks).Some? && Get(Read(Get(d, Networks).value, network), "IPAddress") == Some(JString(address))
    ensures Ip(AssignAll(Owner, props, d, Schema).props, network) == Ok(address)
  {
    NetworksHydrated(props, d);
  }

  /** Hydration stores a present `Networks` array as it is. */
  lemma NetworksHydrated(props: map<string, Json>, d: PhpArray)
    requires Conforms(Owner, d, Schema) && Get(d, Networks).Some?
    ensures var h := AssignAll(Owner, props, d, Schema);
      Networks in h.props && h.props[Networks] == Get(d, Networks).value
  {
    NetworksRead(d);
    AssignedAt(Owner, props, d, Schema, 15);
  }

  /** The last assignment reads `Networks` and keeps an array as it is. */
  lemma NetworksRead(d: PhpArray)
    requires Conforms(Owner, d, Schema) && Get(d, Networks).Some?
    ensures Schema[15].name == Networks && ReadProp(Owner, d, Schema[15]) == Ok(Get(d, Networks).value)
  {
    NetworksDeclared();
  }

  /** `Networks`, the one property `__toArray` leaves out, is declared last. */
  lemma LastDeclared()
    ensures |Schema| == 16 && ExportNames + [Schema[15].name] == Names(Schema)
    ensures Schema[15].name == Networks && Schema[15].source == Defaulted(JList([]))
  {
    ExportedNames();
    NetworksDeclared();
  }

  lemma NetworksDeclared()
    ensures Schema[15] == Prop(Networks, Arr, Defaulted(JList([])))
  {
  }

  /** A network-settings object: its initialised typed properties. */
  class NetworkSettings {
    var props: map<string, Json>

    /** Every assigned property holds a value of its declared type. */
    ghost predicate Valid()
      reads this
    {
      Typed(props, Schema)
    }

    /** New settings have no initialised property. */
    constructor()
      ensures props == map[] && Valid()
    {
      props := map[];
    }

    /** `__fromArray`: the assignments of `Schema`, in order. */
    method FromArray(d: PhpArray) returns (failure: Option<Exception>)
      requires Valid()
      modifies this
      ensures Valid()
      ensures Hydration(props, failure) == AssignAll(Owner, old(props), d, Schema)
    {
      Declared();
      AssignAllTyped(Owner, props, d, Schema, 0);
      var h := AssignAll(Owner, props, d, Schema);
      props := h.props;
      failure := h.failure;
    }

    /** `__fromJson`: decode as associative arrays and hydrate from the
        `NetworkSettings` member, which `__fromArray`'s parameter type requires to be an
        array. A decoded string fails at the read itself: `'NetworkSettings'` is not
        an integer string offset. */
    method FromJson(json: string, codec: Codec) returns (failure: Option<Exception>)
      requires Valid()
      modifies this
      ensures Valid()
      ensures codec.jsonDecode(json).JString? ==> props == old(props) && failure == Some(StringOffset)
      ensures !codec.jsonDecode(json).JString? ==>
        var arg := Read(codec.jsonDecode(json), "NetworkSettings");
        if arg.IsArray() then Hydration(props, failure) == AssignAll(Owner, old(props), arg, Schema)
        else props == old(props) && failure == Some(NotAnArray)
    {
      var data := codec.jsonDecode(json);
      if data.JString? {
        return Some(StringOffset);
      }
      var arg := Read(data, "NetworkSettings");
      if !arg.IsArray() {
        return Some(NotAnArray);
      }
      failure := FromArray(arg);
    }

    function ToArray(): (r: Result<PhpArray>)
      reads this
      ensures r.Ok? <==> forall i :: 0 <= i < |ExportNames| ==> ExportNames[i] in props
      ensures r.Ok? ==> r.value.JObject? && |r.value.members| == 15
      ensures r.Ok? ==> forall i :: 0 <= i < |ExportNames| ==> r.value.members[i] == (ExportNames[i], props[ExportNames[i]])
    {
      Export(props)
    }

    function ToString(): (r: Result<string>)
      reads this
      ensures "IPAddress" !in props ==> r.Err?
      ensures "IPAddress" in props && props["IPAddress"].JString? ==> r == Ok(props["IPAddress"].s)
    {
      Describe(props)
    }

    function Network(name: string): (r: Result<PhpArray>)
      reads this
      ensures Networks !in props ==> r.Err?
      ensures r.Ok? ==> Networks in props && At(props[Networks], name) == Some(r.value) && r.value.IsArray()
    {
      GetNetwork(props, name)
    }

    /** `ip` as written: only the container's own non-empty `IPAddress`
        is ever returned. */
    function IpAddress(network: string): (r: Result<string>)
      reads this
      ensures r.Ok? <==> network == "" && "IPAddress" in props && props["IPAddress"] != JString("")
      ensures r.Ok? ==> r.value == StringOf(props["IPAddress"])
    {
      IpAsWritten(props, network)
    }

    /** `ip` as evidently intended: a named network's address is read from
        its `Networks` entry. */
    function IntendedIpAddress(network: string): (r: Result<string>)
      reads this
      ensures network == "" && "IPAddress" in props && props["IPAddress"] != JString("") ==>
        r == Ok(StringOf(props["IPAddress"]))
      ensures network != "" && Networks in props ==>
        var member := Get(Read(props[Networks], network), "IPAddress");
        member.Some? && member.value.JString? ==> r == Ok(member.value.s)
    {
      Ip(props, network)
    }
  }
}
