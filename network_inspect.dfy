/** What both gateway lookups do with `podman network inspect`: the command
    line, the checks on its outcome and decoded output, the first-match scan
    over the network's CNI plugins, and the per-user address computed from a
    gateway with `ip2long` and `long2ip`. */
module NetworkInspect {
  import opened Failures
  import opened PhpStrings
  import opened JsonValues
  import opened Externals
  import opened DottedQuad

  /** The command line both lookups run. */
  function InspectCommand(network: string): (c: seq<string>)
    ensures |c| == 4 && c[0] == PodmanBinary && c[|c| - 1] == network
  {
    [PodmanBinary, "network", "inspect", network]
  }

  /** `$plugin['ipam']['ranges'][0][0]['gateway']` when that chain is set
      (each step present and non-null). A string on the way never leads to a
      set `gateway`: its offset `'gateway'` is not an integer. */
  function PluginGateway(plugin: Json): (g: Option<Json>)
    ensures g.Some? ==> g.value != JNull
  {
    GetOpt(GetOpt(GetOpt(GetOpt(Get(plugin, "ipam"), "ranges"), "0"), "0"), "gateway")
  }

  /** The gateway of the first plugin that has one, in `foreach` order. */
  function FirstGateway(plugins: seq<Json>): (r: Option<Json>)
    ensures r.Some? ==> r.value != JNull
    decreases |plugins|
  {
    if plugins == [] then None
    else if PluginGateway(plugins[0]).Some? then PluginGateway(plugins[0])
    else FirstGateway(plugins[1..])
  }

  /** A plugin with a gateway, preceded only by plugins without one, is the
      one whose gateway is found. */
  lemma {:induction false} FirstGatewayAt(plugins: seq<Json>, i: nat)
    requires i < |plugins| && PluginGateway(plugins[i]).Some?
    requires forall j :: 0 <= j < i ==> PluginGateway(plugins[j]).None?
    ensures FirstGateway(plugins) == PluginGateway(plugins[i])
    decreases i
  {
    if i > 0 {
      assert PluginGateway(plugins[0]).None?;
      assert forall j :: 0 <= j < i - 1 ==> plugins[1..][j] == plugins[j + 1];
      FirstGatewayAt(plugins[1..], i - 1);
    }
  }

  /** Plugins none of which has a gateway give none. */
  lemma {:induction false} FirstGatewayNone(plugins: seq<Json>)
    requires forall j :: 0 <= j < |plugins| ==> PluginGateway(plugins[j]).None?
    ensures FirstGateway(plugins).None?
    decreases |plugins|
  {
    if plugins != [] {
      assert PluginGateway(plugins[0]).None?;
      assert forall j :: 0 <= j < |plugins| - 1 ==> plugins[1..][j] == plugins[j + 1];
      FirstGatewayNone(plugins[1..]);
    }
  }

  /** The scan finds a gateway exactly when some plugin has one, and then
      that of the first such plugin. */
  lemma FirstGatewayFound(plugins: seq<Json>)
    ensures FirstGateway(plugins).Some? <==> exists i :: 0 <= i < |plugins| && PluginGateway(plugins[i]).Some?
    ensures FirstGateway(plugins).Some? ==>
      exists i :: 0 <= i < |plugins| && PluginGateway(plugins[i]) == FirstGateway(plugins)
        && forall j :: 0 <= j < i ==> PluginGateway(plugins[j]).None?
  {
    var i := FirstWithGateway(plugins);
    if i < |plugins| {
      FirstGatewayAt(plugins, i);
    } else {
      FirstGatewayNone(plugins);
    }
  }

  /** The index of the first plugin with a gateway, `|plugins|` when none has one. */
  function FirstWithGateway(plugins: seq<Json>): (i: nat)
    ensures i <= |plugins|
    ensures i < |plugins| ==> PluginGateway(plugins[i]).Some?
    ensures forall j :: 0 <= j < i ==> PluginGateway(plugins[j]).None?
    decreases |plugins|
  {
    if plugins == [] || PluginGateway(plugins[0]).Some? then 0
    else
      var i := FirstWithGateway(plugins[1..]);
      assert forall j :: 1 <= j < i + 1 ==> plugins[j] == plugins[1..][j - 1];
      i + 1
  }

  /** `$range = ''; foreach ($plugins as $plugin) { ... break; }`: the
      gateway of the first plugin that has one, or `''` when none has (or
      when `plugins` is not an array, which `foreach` only warns about). */
  method ScanPlugins(plugins: Json) returns (range: Json)
    ensures FirstGateway(plugins.Values()).Some? ==> range == FirstGateway(plugins.Values()).value
    ensures FirstGateway(plugins.Values()).None? ==> range == JString("")
  {
    var vs := plugins.Values();
    range := JString("");
    var i := 0;
    while i < |vs|
      invariant 0 <= i <= |vs|
      invariant forall j :: 0 <= j < i ==> PluginGateway(vs[j]).None?
    {
      var g := PluginGateway(vs[i]);
      if g.Some? {
        FirstGatewayAt(vs, i);
        return g.value;
      }
      i := i + 1;
    }
    FirstGatewayNone(vs);
  }

  /** The error both lookups raise when `podman network inspect` fails, or
      when its output does not decode to a non-empty array; `subject` is the
      network name in the first case and the decoded value, as PHP prints
      it, in the second. */
  function InfoError(subject: string, outcome: ProcessOutcome): Exception {
    RuntimeException("Failed getting network info for " + subject + " : " + outcome.errorOutput)
  }

  /** `$network[0]` of the decoded output of a successful inspection, null
      when the array has no element 0. */
  function InspectedNetwork(network: string, outcome: ProcessOutcome, codec: Codec): (r: Result<Json>)
    ensures !outcome.successful ==> r == Err(InfoError(network, outcome))
    ensures outcome.successful ==>
      var decoded := codec.jsonDecode(outcome.output);
      (r.Ok? <==> decoded.IsArray() && decoded.Count() > 0)
      && (r.Ok? ==> r.value == Read(decoded, "0"))
      && (r.Err? ==> r.error == InfoError(StringOf(decoded), outcome))
  {
    if !outcome.successful then Err(InfoError(network, outcome))
    else
      var decoded := codec.jsonDecode(outcome.output);
      if !decoded.IsArray() || decoded.Count() == 0 then Err(InfoError(StringOf(decoded), outcome))
      else Ok(Read(decoded, "0"))
  }

  /** `ip2long($gateway)` in arithmetic: a text `ip2long` rejects gives
      `false`, which counts as 0. */
  function GatewayNumber(gateway: string): (n: nat)
    ensures n < TwoTo32
    ensures Ip2Long(gateway).Some? ==> n == Ip2Long(gateway).value
    ensures Ip2Long(gateway).None? ==> n == 0
  {
    match Ip2Long(gateway)
    case Some(g) => g
    case None => 0
  }

  /** Whether `$range - $subtract + $uid + 1`, evaluated left to right from
      the gateway number `g`, stays within PHP's integers at every step. A
      step that leaves them turns the sum into a float. */
  predicate ShiftFits(g: int, uid: int, subtract: int) {
    IsPhpInt(g - subtract) && IsPhpInt(g - subtract + uid) && IsPhpInt(g - subtract + uid + 1)
  }

  /** `long2ip` given a float outside PHP's integers. */
  const Long2IpArgument: Exception := TypeError("long2ip(): Argument #1 ($ip) must be of type int, float given")

  /** `long2ip(ip2long($gateway) - $subtract + $uid + 1)`: an address that
      `ip2long` reads back as the gateway's number moved by `uid - subtract + 1`
      modulo 2^32, unless the sum overflowed into a float, which `long2ip`
      refuses. */
  function UserAddress(gateway: string, uid: int, subtract: int): (r: Result<string>)
    ensures r.Ok? <==> ShiftFits(GatewayNumber(gateway), uid, subtract)
    ensures r.Ok? ==> Ip2Long(r.value) == Some((GatewayNumber(gateway) - subtract + uid + 1) % TwoTo32)
    ensures r.Err? ==> r.error == Long2IpArgument
  {
    var g := GatewayNumber(gateway);
    if ShiftFits(g, uid, subtract) then Ok(Long2Ip(g - subtract + uid + 1)) else Err(Long2IpArgument)
  }

  /** For a gateway `ip2long` accepts as `g`, the user's address is `long2ip`
      of `g - subtract + uid + 1` when no step overflows, and the float
      error otherwise. */
  lemma UserAddressOfGateway(gateway: string, g: nat, uid: int, subtract: int)
    requires Ip2Long(gateway) == Some(g)
    ensures ShiftFits(g, uid, subtract) ==>
      && UserAddress(gateway, uid, subtract) == Ok(Long2Ip(g - subtract + uid + 1))
      && Ip2Long(UserAddress(gateway, uid, subtract).value) == Some((g - subtract + uid + 1) % TwoTo32)
    ensures !ShiftFits(g, uid, subtract) ==> UserAddress(gateway, uid, subtract) == Err(Long2IpArgument)
  {
    assert GatewayNumber(gateway) == g;
  }

  /** Every uid and offset that fit in 32 bits, as the uids of the account
      database do, give an address. */
  lemma AccountUidsFit(gateway: string, uid: int, subtract: int)
    requires 0 <= uid < TwoTo32 && 0 <= subtract < TwoTo32
    ensures UserAddress(gateway, uid, subtract).Ok?
  {
  }

  /** The largest uid overflows on a gateway at or past the offset: PHP's
      sum is then a float, and `long2ip` refuses it. */
  lemma MaxUidOverflows(gateway: string, subtract: int)
    requires GatewayNumber(gateway) >= subtract
    ensures UserAddress(gateway, PhpIntMax, subtract) == Err(Long2IpArgument)
  {
  }

  /** The user whose uid equals `subtract` gets the address right after the
      gateway, whenever the first step does not overflow. */
  lemma FirstUserAfterGateway(gateway: string, g: nat, subtract: int)
    requires Ip2Long(gateway) == Some(g)
    ensures IsPhpInt(g - subtract) ==>
      UserAddress(gateway, subtract, subtract).Ok? && Ip2Long(UserAddress(gateway, subtract, subtract).value) == Some((g + 1) % TwoTo32)
  {
    UserAddressOfGateway(gateway, g, subtract, subtract);
    assert g - subtract + subtract + 1 == g + 1;
  }

  /** Different uids within 2^32 of each other never share an address: the
      address of the first, when it has one, differs from the outcome for
      the second. */
  lemma UserAddressesDistinct(gateway: string, uid1: int, uid2: int, subtract: int)
    requires uid1 != uid2 && -(TwoTo32 as int) < uid1 - uid2 < TwoTo32
    ensures UserAddress(gateway, uid1, subtract).Ok? ==> UserAddress(gateway, uid1, subtract) != UserAddress(gateway, uid2, subtract)
  {
    var r1, r2 := UserAddress(gateway, uid1, subtract), UserAddress(gateway, uid2, subtract);
    var base := GatewayNumber(gateway) - subtract + 1;
    if r1.Ok? && r1 == r2 {
      assert Ip2Long(r1.value) == Some((base + uid1) % TwoTo32);
      assert Ip2Long(r2.value) == Some((base + uid2) % TwoTo32);
      ModDifference(base + uid1, base + uid2);
      assert (base + uid1) - (base + uid2) == uid1 - uid2;
      SmallMultiple(uid1 - uid2);
    }
  }

  lemma ModDifference(a: int, b: int)
    requires a % TwoTo32 == b % TwoTo32
    ensures (a - b) % TwoTo32 == 0
  {
    var m := TwoTo32 as int;
    var qa, qb := a / m, b / m;
    assert a == qa * m + a % m;
    assert b == qb * m + b % m;
    assert a - b == (qa - qb) * m;
  }

  lemma SmallMultiple(x: int)
    requires x % TwoTo32 == 0 && -(TwoTo32 as int) < x < TwoTo32
    ensures x == 0
  {
    var m := TwoTo32 as int;
    var q := x / m;
    assert x == q * m;
    assert -1 < q < 1;
  }
}
