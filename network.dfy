/** `Network`: the gateway of a podman network, read from the subnets of
    `podman network inspect` output or, failing that, from its CNI plugins,
    and the address of a user's container derived from it. */
module Networks {
  import opened Failures
  import opened JsonValues
  import opened TypedProperties
  import opened Externals
  import opened DottedQuad
  import opened NetworkInspect
  import opened PhpStrings

  const RootlessInfo: Exception := RuntimeException("Failed getting network rootless info.")
  const RangeInfo: Exception := RuntimeException("Failed getting network range info ")

  /** The error of passing an array gateway to `ip2long`. */
  const Ip2LongArgument: string := "ip2long(): Argument #1 ($ip) must be of type string"

  /** `$net['subnets'][0]['gateway']` when that chain is set. */
  function SubnetGateway(net: Json): (g: Option<Json>)
    ensures g.Some? ==> g.value != JNull
  {
    GetOpt(GetOpt(Get(net, "subnets"), "0"), "gateway")
  }

  /** The gateway `userContainerGateway` finds in the inspected network `net`:
      the first subnet's, else the first plugin gateway, else the error that
      there are no plugins or that nothing was found. */
  function GatewayOf(net: Json): (r: Result<Json>)
    ensures r.Ok? ==> r.value != JString("") && r.value != JNull
  {
    var range :=
      if SubnetGateway(net).Some? then Ok(SubnetGateway(net).value)
      else if Get(net, "plugins").None? then Err(RootlessInfo)
      else Ok(match FirstGateway(Read(net, "plugins").Values()) case Some(g) => g case None => JString(""));
    if range.Err? then range
    else if range.value == JString("") then Err(RangeInfo)
    else range
  }

  /** `userContainerGateway` on the outcome of the inspection: a failed
      inspection is reported before anything else, and a gateway found is
      neither null nor `''`. */
  function Gateway(network: string, outcome: ProcessOutcome, codec: Codec): (r: Result<Json>)
    ensures !outcome.successful ==> r == Err(InfoError(network, outcome))
    ensures r.Ok? ==> r.value != JString("") && r.value != JNull
  {
    var net :- InspectedNetwork(network, outcome, codec);
    GatewayOf(net)
  }

  /** `userContainerGateway`: inspect the network, then look for a gateway. */
  method UserContainerGateway(network: string, run: Runner, codec: Codec) returns (r: Result<Json>)
    ensures r == Gateway(network, run(InspectCommand(network)), codec)
  {
    var range := JString("");
    var outcome := run(InspectCommand(network));
    var inspected := InspectedNetwork(network, outcome, codec);
    if inspected.Err? {
      return Err(inspected.error);
    }
    var net := inspected.value;
    var subnet := SubnetGateway(net);
    if subnet.Some? {
      range := subnet.value;
    } else {
      if Get(net, "plugins").None? {
        return Err(RootlessInfo);
      }
      range := ScanPlugins(Read(net, "plugins"));
    }
    if range == JString("") {
      return Err(RangeInfo);
    }
    return Ok(range);
  }

  /** `userContainerIP`, given the outcome of the inspection: the gateway,
      passed to `ip2long` (which converts a scalar to its text and rejects
      an array), moved to the user's address. Whatever it returns is a
      dotted quad `ip2long` accepts. */
  function UserIp(uid: int, network: string, subtract: int, outcome: ProcessOutcome, codec: Codec): (r: Result<string>)
    ensures r.Ok? ==> Ip2Long(r.value).Some?
  {
    var range :- Gateway(network, outcome, codec);
    var text :- Coerce(Str, range, Ip2LongArgument);
    UserAddress(text.s, uid, subtract)
  }

  /** `userContainerIP($uid, $network = "Customers", $subtract = 1000)`. */
  method UserContainerIP(uid: int, run: Runner, codec: Codec, network: string := "Customers", subtract: int := 1000)
    returns (r: Result<string>)
    ensures r == UserIp(uid, network, subtract, run(InspectCommand(network)), codec)
  {
    var range := UserContainerGateway(network, run, codec);
    if range.Err? {
      return Err(range.error);
    }
    var text := Coerce(Str, range.value, Ip2LongArgument);
    if text.Err? {
      return Err(text.error);
    }
    r := UserAddress(text.value.s, uid, subtract);
  }

  /** A subnet gateway wins and the plugins are not consulted. */
  lemma SubnetGatewayFirst(net: Json)
    requires SubnetGateway(net).Some?
    ensures SubnetGateway(net).value != JString("") ==> GatewayOf(net) == Ok(SubnetGateway(net).value)
    ensures SubnetGateway(net).value == JString("") ==> GatewayOf(net) == Err(RangeInfo)
  {
  }

  /** Without a subnet gateway and without `plugins`, the network is reported
      as lacking rootless information. */
  lemma NoPluginsIsRootless(net: Json)
    requires SubnetGateway(net).None? && Get(net, "plugins").None?
    ensures GatewayOf(net) == Err(RootlessInfo)
  {
  }

  /** Without a subnet gateway, the first plugin with a gateway wins over
      every later one; plugins before it (with or without `ipam`) have none. */
  lemma FirstPluginWins(net: Json, i: nat)
    requires SubnetGateway(net).None? && Get(net, "plugins").Some?
    requires var ps := Read(net, "plugins").Values();
      && i < |ps| && PluginGateway(ps[i]).Some? && PluginGateway(ps[i]).value != JString("")
      && forall j :: 0 <= j < i ==> PluginGateway(ps[j]).None?
    ensures GatewayOf(net) == Ok(PluginGateway(Read(net, "plugins").Values()[i]).value)
  {
    FirstGatewayAt(Read(net, "plugins").Values(), i);
  }

  /** Plugins none of which has a gateway give the range error. */
  lemma NoPluginGateway(net: Json)
    requires SubnetGateway(net).None? && Get(net, "plugins").Some?
    requires var ps := Read(net, "plugins").Values(); forall j :: 0 <= j < |ps| ==> PluginGateway(ps[j]).None?
    ensures GatewayOf(net) == Err(RangeInfo)
  {
    FirstGatewayNone(Read(net, "plugins").Values());
  }

  /** A failed inspection, or output that is not a non-empty array, is an
      error before any gateway is looked for. */
  lemma InspectionErrors(network: string, outcome: ProcessOutcome, codec: Codec)
    ensures !outcome.successful ==> Gateway(network, outcome, codec) == Err(InfoError(network, outcome))
    ensures outcome.successful && !(codec.jsonDecode(outcome.output).IsArray() && codec.jsonDecode(outcome.output).Count() > 0) ==>
      Gateway(network, outcome, codec) == Err(InfoError(StringOf(codec.jsonDecode(outcome.output)), outcome))
  {
  }

  /** The address of a user in a network whose gateway is a dotted quad is
      the gateway's number moved by `uid - subtract + 1`, modulo 2^32, when
      the sum stays within PHP's integers, and `long2ip`'s error on the
      float otherwise; the address error of `userContainerIP` is never
      raised. */
  lemma UserIpOfGateway(uid: int, network: string, subtract: int, outcome: ProcessOutcome, codec: Codec, g: nat)
    requires Gateway(network, outcome, codec).Ok?
    requires Gateway(network, outcome, codec).value.JString?
    requires Ip2Long(Gateway(network, outcome, codec).value.s) == Some(g)
    ensures ShiftFits(g, uid, subtract) ==>
      && UserIp(uid, network, subtract, outcome, codec).Ok?
      && Ip2Long(UserIp(uid, network, subtract, outcome, codec).value) == Some((g - subtract + uid + 1) % TwoTo32)
    ensures !ShiftFits(g, uid, subtract) ==> UserIp(uid, network, subtract, outcome, codec) == Err(Long2IpArgument)
  {
    var s := Gateway(network, outcome, codec).value.s;
    UserIpOfText(uid, network, subtract, outcome, codec, s);
    UserAddressOfGateway(s, g, uid, subtract);
  }

  /** A text gateway is used as it is. */
  lemma UserIpOfText(uid: int, network: string, subtract: int, outcome: ProcessOutcome, codec: Codec, s: string)
    requires Gateway(network, outcome, codec) == Ok(JString(s))
    ensures UserIp(uid, network, subtract, outcome, codec) == UserAddress(s, uid, subtract)
  {
  }

  /** A failed gateway lookup is the error of `userContainerIP`, and an
      array gateway is refused by `ip2long`'s parameter type. */
  lemma UserIpErrors(uid: int, network: string, subtract: int, outcome: ProcessOutcome, codec: Codec)
    ensures var gw := Gateway(network, outcome, codec);
      && (gw.Err? ==> UserIp(uid, network, subtract, outcome, codec) == Err(gw.error))
      && (gw.Ok? && gw.value.IsArray() ==> UserIp(uid, network, subtract, outcome, codec) == Err(TypeError(Ip2LongArgument)))
  {
  }

  /** With the default offset, uid 1100 in a network whose gateway is
      `192.168.4.1` gets `192.168.4.102`. */
  lemma DefaultOffsetExample(gateway: string, uid: int)
    requires gateway == "192.168.4.1" && uid == 1100
    ensures UserAddress(gateway, uid, 1000) == Ok("192.168.4.102")
  {
    var g := Pack(192, 168, 4, 1);
    GatewayValue(gateway, g);
    var a := g - 1000 + uid + 1;
    assert a == Pack(192, 168, 4, 102);
    AddressValue(a);
  }

  lemma GatewayValue(gateway: string, g: nat)
    requires gateway == "192.168.4.1" && g == Pack(192, 168, 4, 1)
    ensures GatewayNumber(gateway) == g
  {
    OctetTexts();
    Long2IpOfQuad(g, 192, 168, 4, 1, "192", "168", "4", "1", gateway);
    Long2IpBelow(g);
    Ip2LongOfFormat(g);
  }

  lemma AddressValue(a: int)
    requires a == Pack(192, 168, 4, 102)
    ensures Long2Ip(a) == "192.168.4.102"
  {
    OctetTexts();
    Long2IpOfQuad(a, 192, 168, 4, 102, "192", "168", "4", "102", "192.168.4.102");
  }

  lemma OctetTexts()
    ensures NatToString(192) == "192" && NatToString(168) == "168" && NatToString(4) == "4"
    ensures NatToString(1) == "1" && NatToString(102) == "102"
  {
  }
}
