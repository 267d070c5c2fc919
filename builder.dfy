/** `Containers\Builder`: a fluent builder of a podman command line. Every
    setter either appends flag tokens to `args` or overwrites one of the
    scalar fields, and `build(true)` assembles the command line from the
    process-wide podman defaults, the action, the accumulated arguments,
    the root filesystem or image, and the command. The builder also looks up
    the gateway of a network from its CNI plugins and derives a user's
    address from it. */
module Builders {
  import opened Failures
  import opened JsonValues
  import opened TypedProperties
  import opened Externals
  import opened DottedQuad
  import opened NetworkInspect
  import Networks

  /** The setters that append one flag and nothing else. */
  datatype Switch = Interactive | Tty | Daemon | Remove | Replace | Detach
  {
    function Flag(): string {
      match this
      case Interactive => "-i"
      case Tty => "-t"
      case Daemon => "-d"
      case Remove => "--rm"
      case Replace => "--replace"
      case Detach => "--detach"
    }
  }

  /** The setters that append a flag followed by their argument unchanged. */
  datatype Setting =
    | Restart | User | Group | Workdir | Ip | CGroupParent | Hostname | Label | LabelFile
    | LogDriver | LogOpt | Memory | MemoryReservation | MemorySwap | MemorySwapiness
    | KernelMemory | CpuShares | CpuPeriod | CpuQuota | CpuRtPeriod | CpuRtRuntime | Cpus
    | CpusetCpus | CpusetMems | BlkioWeight | BlkioWeightDevice | Pod
  {
    function Flag(): string {
      match this
      case Restart => "--restart"
      case User => "--user"
      case Group => "--group"
      case Workdir => "--workdir"
      case Ip => "--ip"
      case CGroupParent => "--cgroup-parent"
      case Hostname => "--hostname"
      case Label => "--label"
      case LabelFile => "--label-file"
      case LogDriver => "--log-driver"
      case LogOpt => "--log-opt"
      case Memory => "--memory"
      case MemoryReservation => "--memory-reservation"
      case MemorySwap => "--memory-swap"
      case MemorySwapiness => "--memory-swapiness"
      case KernelMemory => "--kernel-memory"
      case CpuShares => "--cpu-shares"
      case CpuPeriod => "--cpu-period"
      case CpuQuota => "--cpu-quota"
      case CpuRtPeriod => "--cpu-rt-period"
      case CpuRtRuntime => "--cpu-rt-runtime"
      case Cpus => "--cpus"
      case CpusetCpus => "--cpuset-cpus"
      case CpusetMems => "--cpuset-mems"
      case BlkioWeight => "--blkio-weight"
      case BlkioWeightDevice => "--blkio-weight-device"
      case Pod => "--pod"
    }
  }

  /** The fields of a builder. */
  datatype Config = Config(
    args: seq<string>,
    action: string,
    image: string,
    rootfs: string,
    name: string,
    command: seq<string>,
    subject: string,
    network: string,
    cgroupManager: string)

  /** The fields of `new Builder()`. */
  const Initial: Config := Config([], "run", "", "", "", [], "container", "podman", "cgroupfs")

  /** One setter call with its arguments. */
  datatype Call =
    | CgroupManager(manager: string)
    | Action(action: string)
    | Subject(subject: string)
    | Toggle(switch: Switch)
    | Set(setting: Setting, value: string)
    | Name(name: string)
    | Image(image: string)
    | Command(command: seq<string>)
    | Env(key: string, value: string)
    | Volume(source: string, destination: string)
    | Port(source: string, destination: string)
    | Network(network: string)
    | Rootfs(rootfs: string)

  /** The tokens a call appends to `args`. */
  function Tokens(call: Call): seq<string> {
    match call
    case Toggle(s) => [s.Flag()]
    case Set(s, v) => [s.Flag(), v]
    case Name(n) => ["--name", n]
    case Env(k, v) => ["-e", k + "=" + v]
    case Volume(s, d) => ["-v", s + ":" + d]
    case Port(s, d) => ["-p", s + ":" + d]
    case Network(n) => ["--network", n]
    case _ => []
  }

  /** A call that only overwrites a scalar field. */
  predicate IsScalar(call: Call) {
    call.CgroupManager? || call.Action? || call.Subject? || call.Image? || call.Command? || call.Rootfs?
  }

  /** What one setter does to the fields: `args` only ever grows, by the
      call's tokens. */
  function Apply(c: Config, call: Call): (r: Config)
    ensures r.args == c.args + Tokens(call)
  {
    match call
    case CgroupManager(m) => c.(cgroupManager := m)
    case Action(a) => c.(action := a)
    case Subject(s) => c.(subject := s)
    case Toggle(s) => c.(args := c.args + [s.Flag()])
    case Set(s, v) => c.(args := c.args + [s.Flag(), v])
    case Name(n) => c.(args := c.args + ["--name", n], name := n)
    case Image(i) => c.(image := i)
    case Command(cmd) => c.(command := cmd)
    case Env(k, v) => c.(args := c.args + ["-e", k + "=" + v])
    case Volume(s, d) => c.(args := c.args + ["-v", s + ":" + d])
    case Port(s, d) => c.(args := c.args + ["-p", s + ":" + d])
    case Network(n) => c.(args := c.args + ["--network", n], network := n)
    case Rootfs(r) => c.(rootfs := r)
  }

  /** The scalar setters and `name` and `network` overwrite their own field
      and no other scalar field. */
  lemma ScalarFields(c: Config, call: Call)
    ensures var r := Apply(c, call);
      && r.action == (if call.Action? then call.action else c.action)
      && r.image == (if call.Image? then call.image else c.image)
      && r.rootfs == (if call.Rootfs? then call.rootfs else c.rootfs)
      && r.command == (if call.Command? then call.command else c.command)
      && r.name == (if call.Name? then call.name else c.name)
      && r.network == (if call.Network? then call.network else c.network)
      && r.subject == (if call.Subject? then call.subject else c.subject)
      && r.cgroupManager == (if call.CgroupManager? then call.manager else c.cgroupManager)
  {
  }

  /** A chain of setter calls, left to right. */
  function Run(c: Config, calls: seq<Call>): Config
    decreases |calls|
  {
    if calls == [] then c else Run(Apply(c, calls[0]), calls[1..])
  }

  /** The tokens of a chain of calls, in call order. */
  function AllTokens(calls: seq<Call>): seq<string>
    decreases |calls|
  {
    if calls == [] then [] else Tokens(calls[0]) + AllTokens(calls[1..])
  }

  /** The scalar setters leave `args` alone; every other setter appends at
      least its flag. */
  lemma ScalarKeepsArgs(c: Config, call: Call)
    ensures IsScalar(call) <==> Apply(c, call).args == c.args
  {
  }

  /** A chain of calls appends exactly the calls' tokens, in call order,
      after what was there. */
  lemma {:induction false} RunArgs(c: Config, calls: seq<Call>)
    ensures Run(c, calls).args == c.args + AllTokens(calls)
    decreases |calls|
  {
    if calls != [] {
      RunArgs(Apply(c, calls[0]), calls[1..]);
    }
  }

  /** The most recent `command(...)` in a chain is the command, or the
      starting one when there is none: `command` replaces rather than appends. */
  function LastCommand(init: seq<string>, calls: seq<Call>): seq<string>
    decreases |calls|
  {
    if calls == [] then init
    else if calls[|calls| - 1].Command? then calls[|calls| - 1].command
    else LastCommand(init, calls[..|calls| - 1])
  }

  lemma {:induction false} RunSnoc(c: Config, calls: seq<Call>, last: Call)
    ensures Run(c, calls + [last]) == Apply(Run(c, calls), last)
    decreases |calls|
  {
    if calls == [] {
      assert [last][1..] == [];
    } else {
      assert (calls + [last])[1..] == calls[1..] + [last];
      RunSnoc(Apply(c, calls[0]), calls[1..], last);
    }
  }

  lemma {:induction false} RunCommand(c: Config, calls: seq<Call>)
    ensures Run(c, calls).command == LastCommand(c.command, calls)
    decreases |calls|
  {
    if calls != [] {
      var init := calls[..|calls| - 1];
      assert calls == init + [calls[|calls| - 1]];
      RunSnoc(c, init, calls[|calls| - 1]);
      RunCommand(c, init);
    }
  }

  /** The command line `build(true)` returns for the fields `c`: the podman
      binary, `--cgroup-manager` and the process-wide manager, the action,
      the arguments, then `--rootfs` and the root filesystem when one is set
      or else the image (even an empty one), and the command last. */
  function CommandVector(c: Config): (v: seq<string>)
    ensures |v| == 4 + |c.args| + (if c.rootfs != "" then 2 else 1) + |c.command|
  {
    [PodmanBinary, "--cgroup-manager", PodmanCgroupManager, c.action] + c.args
      + (if c.rootfs != "" then ["--rootfs", c.rootfs] else [c.image])
      + c.command
  }

  /** Where each part of the builder lands in the command line. */
  lemma VectorLayout(c: Config)
    ensures var v := CommandVector(c); var n := |c.args|;
      && v[..4] == [PodmanBinary, "--cgroup-manager", PodmanCgroupManager, c.action]
      && v[4..4 + n] == c.args
      && (c.rootfs != "" ==> v[4 + n..6 + n] == ["--rootfs", c.rootfs] && v[6 + n..] == c.command)
      && (c.rootfs == "" ==> v[4 + n] == c.image && v[5 + n..] == c.command)
  {
  }

  /** The builder's own cgroup manager and subject never reach the command
      line: `build` reads the process-wide default instead. */
  lemma UnusedFields(c: Config, manager: string, subject: string)
    ensures CommandVector(c.(cgroupManager := manager, subject := subject)) == CommandVector(c)
    ensures CommandVector(Apply(c, CgroupManager(manager))) == CommandVector(c)
    ensures CommandVector(Apply(c, Subject(subject))) == CommandVector(c)
  {
  }

  /** A second `command(...)` discards the first. */
  lemma CommandReplaced(c: Config, first: seq<string>, second: seq<string>)
    ensures Apply(Apply(c, Command(first)), Command(second)) == Apply(c, Command(second))
  {
  }

  /** The arguments `testBuilderArrayIsCorrect` passes, by setter; the
      integers it passes become their text, and the second argument it
      passes to `blkioWeightDevice` is dropped, as PHP drops surplus
      arguments. In that test `name` and `image` are both "test". */
  datatype TestArguments = TestArguments(
    name: string, image: string, ip: string, portSource: string, portDestination: string,
    volumeSource: string, volumeDestination: string, envKey: string, envValue: string,
    user: string, group: string, memory: string, cpus: string, cpuShares: string,
    cpuPeriod: string, cpuQuota: string, cpusetCpus: string, cpusetMems: string,
    blkioWeight: string, blkioWeightDevice: string)

  /** The values of that test. */
  const TestValues: TestArguments := TestArguments(
    "test", "test", "192.168.4.101", "80", "443", "/var/www/htmls", "/var/www/htmld", "TEST", "test",
    "testuser", "testgroup", "1024", "1", "1024", "100000", "50000", "0-1", "0", "500", "/dev/sda")

  /** The chain of calls of that test, on a new builder, in four parts. */
  function TestChain(t: TestArguments): Config {
    TestTail(t, TestLimits(t, TestOptions(t, TestHead(t, Initial))))
  }

  function TestHead(t: TestArguments, c: Config): Config {
    Apply(Apply(Apply(Apply(Apply(c, Name(t.name)), Image(t.image)), Set(Ip, t.ip)),
      Port(t.portSource, t.portDestination)), Volume(t.volumeSource, t.volumeDestination))
  }

  function TestOptions(t: TestArguments, c: Config): Config {
    Apply(Apply(Apply(Apply(Apply(c, Env(t.envKey, t.envValue)), Set(User, t.user)), Set(Group, t.group)),
      Set(Memory, t.memory)), Set(Cpus, t.cpus))
  }

  function TestLimits(t: TestArguments, c: Config): Config {
    Apply(Apply(Apply(Apply(Apply(c, Set(CpuShares, t.cpuShares)), Set(CpuPeriod, t.cpuPeriod)),
      Set(CpuQuota, t.cpuQuota)), Set(CpusetCpus, t.cpusetCpus)), Set(CpusetMems, t.cpusetMems))
  }

  function TestTail(t: TestArguments, c: Config): Config {
    Apply(Apply(Apply(Apply(Apply(c, Set(BlkioWeight, t.blkioWeight)), Set(BlkioWeightDevice, t.blkioWeightDevice)),
      Action("run")), Subject("container")), CgroupManager("cgroupfs"))
  }

  function HeadTokens(t: TestArguments): seq<string> {
    ["--name", t.name, "--ip", t.ip, "-p", t.portSource + ":" + t.portDestination,
     "-v", t.volumeSource + ":" + t.volumeDestination]
  }

  function OptionTokens(t: TestArguments): seq<string> {
    ["-e", t.envKey + "=" + t.envValue, "--user", t.user, "--group", t.group, "--memory", t.memory, "--cpus", t.cpus]
  }

  function LimitTokens(t: TestArguments): seq<string> {
    ShareTokens(t) + CpusetTokens(t)
  }

  function ShareTokens(t: TestArguments): seq<string> {
    ["--cpu-shares", t.cpuShares, "--cpu-period", t.cpuPeriod, "--cpu-quota", t.cpuQuota]
  }

  function CpusetTokens(t: TestArguments): seq<string> {
    ["--cpuset-cpus", t.cpusetCpus, "--cpuset-mems", t.cpusetMems]
  }

  function TailTokens(t: TestArguments): seq<string> {
    ["--blkio-weight", t.blkioWeight, "--blkio-weight-device", t.blkioWeightDevice]
  }

  lemma TestHeadFields(t: TestArguments, c: Config)
    ensures TestHead(t, c) == c.(args := c.args + HeadTokens(t), name := t.name, image := t.image)
  {
  }

  lemma TestOptionsFields(t: TestArguments, c: Config)
    ensures TestOptions(t, c) == c.(args := c.args + OptionTokens(t))
  {
  }

  lemma TestLimitsFields(t: TestArguments, c: Config)
    ensures TestLimits(t, c) == c.(args := c.args + LimitTokens(t))
  {
    var c3 := Apply(Apply(Apply(c, Set(CpuShares, t.cpuShares)), Set(CpuPeriod, t.cpuPeriod)), Set(CpuQuota, t.cpuQuota));
    ShareFields(t, c);
    CpusetFields(t, c3);
  }

  lemma ShareFields(t: TestArguments, c: Config)
    ensures Apply(Apply(Apply(c, Set(CpuShares, t.cpuShares)), Set(CpuPeriod, t.cpuPeriod)), Set(CpuQuota, t.cpuQuota))
      == c.(args := c.args + ShareTokens(t))
  {
  }

  lemma CpusetFields(t: TestArguments, c: Config)
    ensures Apply(Apply(c, Set(CpusetCpus, t.cpusetCpus)), Set(CpusetMems, t.cpusetMems))
      == c.(args := c.args + CpusetTokens(t))
  {
  }

  lemma TestTailFields(t: TestArguments, c: Config)
    ensures TestTail(t, c) == c.(args := c.args + TailTokens(t), action := "run", subject := "container", cgroupManager := "cgroupfs")
  {
  }

  /** The command line that test expects, for its arguments `t`. */
  function TestVector(t: TestArguments): seq<string> {
    ["/usr/bin/podman", "--cgroup-manager", "cgroupfs", "run"]
    + HeadTokens(t) + OptionTokens(t) + LimitTokens(t) + TailTokens(t)
    + [t.image]
  }

  /** `testBuilderArrayIsCorrect`, for any values of the arguments it
      passes: the chain builds the expected command line, the image last
      since no root filesystem is set. */
  lemma TestVectorBuilt(t: TestArguments)
    ensures CommandVector(TestChain(t)) == TestVector(t)
  {
    var c1 := TestHead(t, Initial);
    TestHeadFields(t, Initial);
    var c2 := TestOptions(t, c1);
    TestOptionsFields(t, c1);
    var c3 := TestLimits(t, c2);
    TestLimitsFields(t, c2);
    TestTailFields(t, c3);
    TestLayout(t, TestChain(t));
  }

  lemma TestLayout(t: TestArguments, c: Config)
    requires c.args == [] + HeadTokens(t) + OptionTokens(t) + LimitTokens(t) + TailTokens(t)
    requires c.action == "run" && c.image == t.image && c.rootfs == "" && c.command == []
    ensures CommandVector(c) == TestVector(t)
  {
  }

  /** `getNetworkGateway` returning a gateway that is an array. */
  const GatewayReturn: string := "Builder::getNetworkGateway(): Return value must be of type string"

  /** The gateway `getNetworkGateway` finds in the inspected network `net`:
      the first plugin gateway, or `''` when no plugin has one. */
  function PluginsGateway(net: Json): (r: Result<Json>)
    ensures net.JString? <==> r == Err(StringOffset)
    ensures !net.JString? ==> r == Ok(match FirstGateway(Read(net, "plugins").Values()) case Some(g) => g case None => JString(""))
  {
    if net.JString? then Err(StringOffset)
    else Ok(match FirstGateway(Read(net, "plugins").Values()) case Some(g) => g case None => JString(""))
  }

  /** `getNetworkGateway` on the outcome of the inspection, with the gateway
      converted to the declared `string` return type; a failed inspection
      is reported before anything else. */
  function Gateway(network: string, outcome: ProcessOutcome, codec: Codec): (r: Result<string>)
    ensures !outcome.successful ==> r == Err(InfoError(network, outcome))
  {
    var net :- InspectedNetwork(network, outcome, codec);
    var range :- PluginsGateway(net);
    var text :- Coerce(Str, range, GatewayReturn);
    Ok(text.s)
  }

  /** The network `findUserIP` inspects: its argument, or the builder's
      network when the argument is empty. */
  function TargetNetwork(own: string, network: string): (n: string)
    ensures network != "" ==> n == network
    ensures network == "" ==> n == own
  {
    if network == "" then own else network
  }

  /** `findUserIP` on the outcome of inspecting the target network:
      whatever it returns is a dotted quad `ip2long` accepts. */
  function UserIp(own: string, uid: int, network: string, subtract: int, outcome: ProcessOutcome, codec: Codec): (r: Result<string>)
    ensures r.Ok? ==> Ip2Long(r.value).Some?
  {
    var range :- Gateway(TargetNetwork(own, network), outcome, codec);
    UserAddress(range, uid, subtract)
  }

  /** The builder's result depends only on its plugins: the first plugin
      gateway that is a string is returned as it stands, and no plugin
      gateway at all gives `''` rather than an error. */
  lemma GatewayOfPlugins(network: string, outcome: ProcessOutcome, codec: Codec)
    requires InspectedNetwork(network, outcome, codec).Ok?
    requires !InspectedNetwork(network, outcome, codec).value.JString?
    ensures var fg := FirstGateway(Read(InspectedNetwork(network, outcome, codec).value, "plugins").Values());
      && (fg.None? ==> Gateway(network, outcome, codec) == Ok(""))
      && (fg.Some? && fg.value.JString? ==> Gateway(network, outcome, codec) == Ok(fg.value.s))
      && (fg.Some? && fg.value.IsArray() ==> Gateway(network, outcome, codec) == Err(TypeError(GatewayReturn)))
  {
  }

  /** Where the network has no subnet gateway but has plugins, one of which
      has a non-empty text gateway, the builder and `Network` agree. */
  lemma AgreesWithNetwork(network: string, outcome: ProcessOutcome, codec: Codec)
    requires InspectedNetwork(network, outcome, codec).Ok?
    requires var net := InspectedNetwork(network, outcome, codec).value;
      && !net.JString? && Networks.SubnetGateway(net).None? && Get(net, "plugins").Some?
    requires var fg := FirstGateway(Read(InspectedNetwork(network, outcome, codec).value, "plugins").Values());
      fg.Some? && fg.value.JString? && fg.value.s != ""
    ensures Networks.Gateway(network, outcome, codec).Ok?
    ensures Gateway(network, outcome, codec) == Ok(Networks.Gateway(network, outcome, codec).value.s)
  {
  }

  /** Without any plugin gateway the builder does not fail on the lookup:
      `ip2long('')` is `false`, counted as 0, and the user gets the address
      `uid - subtract + 1` modulo 2^32 (or the float error, when that sum
      overflows). */
  lemma NoGatewayAddress(own: string, uid: int, network: string, subtract: int, outcome: ProcessOutcome, codec: Codec)
    requires Gateway(TargetNetwork(own, network), outcome, codec) == Ok("")
    ensures ShiftFits(0, uid, subtract) ==> UserIp(own, uid, network, subtract, outcome, codec) == Ok(Long2Ip(uid - subtract + 1))
    ensures !ShiftFits(0, uid, subtract) ==> UserIp(own, uid, network, subtract, outcome, codec) == Err(Long2IpArgument)
  {
    UserIpOfGateway(own, uid, network, subtract, outcome, codec, "");
    EmptyGatewayAddress(uid, subtract);
  }

  lemma EmptyGatewayAddress(uid: int, subtract: int)
    ensures ShiftFits(0, uid, subtract) ==> UserAddress("", uid, subtract) == Ok(Long2Ip(uid - subtract + 1))
    ensures !ShiftFits(0, uid, subtract) ==> UserAddress("", uid, subtract) == Err(Long2IpArgument)
  {
    assert Split("", '.') == [""];
    assert GatewayNumber("") == 0;
  }

  /** A successful lookup gives the address that parses back to the
      gateway's number moved by `uid - subtract + 1`, modulo 2^32, unless
      that sum overflows into a float. */
  lemma UserIpOfGateway(own: string, uid: int, network: string, subtract: int, outcome: ProcessOutcome, codec: Codec, gw: string)
    requires Gateway(TargetNetwork(own, network), outcome, codec) == Ok(gw)
    ensures UserIp(own, uid, network, subtract, outcome, codec) == UserAddress(gw, uid, subtract)
    ensures ShiftFits(GatewayNumber(gw), uid, subtract) ==>
      && UserIp(own, uid, network, subtract, outcome, codec).Ok?
      && Ip2Long(UserIp(own, uid, network, subtract, outcome, codec).value) == Some((GatewayNumber(gw) - subtract + uid + 1) % TwoTo32)
    ensures !ShiftFits(GatewayNumber(gw), uid, subtract) ==> UserIp(own, uid, network, subtract, outcome, codec) == Err(Long2IpArgument)
  {
  }

  /** A failed lookup is the error of `findUserIP`. */
  lemma UserIpErrors(own: string, uid: int, network: string, subtract: int, outcome: ProcessOutcome, codec: Codec)
    requires Gateway(TargetNetwork(own, network), outcome, codec).Err?
    ensures UserIp(own, uid, network, subtract, outcome, codec) == Err(Gateway(TargetNetwork(own, network), outcome, codec).error)
  {
  }

  /** A builder: the fields its setters write. */
  class Builder {
    var args: seq<string>
    var action: string
    var image: string
    var rootfs: string
    var name: string
    var command: seq<string>
    var subject: string
    var network: string
    var cgroupManager: string

    function Fields(): Config
      reads this
    {
      Config(args, action, image, rootfs, name, command, subject, network, cgroupManager)
    }

    /** `new Builder()`. */
    constructor()
      ensures Fields() == Initial
    {
      args, action, image, rootfs, name := [], "run", "", "", "";
      command, subject, network, cgroupManager := [], "container", "podman", "cgroupfs";
    }

    /** `cgroupManager($manager)`. */
    method CgroupManager(manager: string)
      modifies this
      ensures Fields() == Apply(old(Fields()), Call.CgroupManager(manager))
    {
      cgroupManager := manager;
    }

    /** `action($action)`. */
    method Action(action: string)
      modifies this
      ensures Fields() == Apply(old(Fields()), Call.Action(action))
    {
      this.action := action;
    }

    /** `subject($subject)`. */
    method Subject(subject: string)
      modifies this
      ensures Fields() == Apply(old(Fields()), Call.Subject(subject))
    {
      this.subject := subject;
    }

    /** `interactive()`, `tty()`, `daemon()`, `remove()`, `replace()` and `detach()`. */
    method Toggle(s: Switch)
      modifies this
      ensures Fields() == Apply(old(Fields()), Call.Toggle(s))
    {
      args := args + [s.Flag()];
    }

    /** The setters from `restart` to `pod` that append their flag and argument. */
    method Set(s: Setting, value: string)
      modifies this
      ensures Fields() == Apply(old(Fields()), Call.Set(s, value))
    {
      args := args + [s.Flag()];
      args := args + [value];
    }

    /** `name($name)`. */
    method Name(name: string)
      modifies this
      ensures Fields() == Apply(old(Fields()), Call.Name(name))
    {
      args := args + ["--name"];
      args := args + [name];
      this.name := name;
    }

    /** `image($image)`. */
    method Image(image: string)
      modifies this
      ensures Fields() == Apply(old(Fields()), Call.Image(image))
    {
      this.image := image;
    }

    /** `command($command)`. */
    method Command(command: seq<string>)
      modifies this
      ensures Fields() == Apply(old(Fields()), Call.Command(command))
    {
      this.command := command;
    }

    /** `env($key, $value)`. */
    method Env(key: string, value: string)
      modifies this
      ensures Fields() == Apply(old(Fields()), Call.Env(key, value))
    {
      args := args + ["-e"];
      args := args + [key + "=" + value];
    }

    /** `volume($source, $destination)`. */
    method Volume(source: string, destination: string)
      modifies this
      ensures Fields() == Apply(old(Fields()), Call.Volume(source, destination))
    {
      args := args + ["-v"];
      args := args + [source + ":" + destination];
    }

    /** `port($source, $destination)`. */
    method Port(source: string, destination: string)
      modifies this
      ensures Fields() == Apply(old(Fields()), Call.Port(source, destination))
    {
      args := args + ["-p"];
      args := args + [source + ":" + destination];
    }

    /** `network($network)`. */
    method Network(network: string)
      modifies this
      ensures Fields() == Apply(old(Fields()), Call.Network(network))
    {
      args := args + ["--network"];
      args := args + [network];
      this.network := network;
    }

    /** `rootfs($rootfs)`. */
    method Rootfs(rootfs: string)
      modifies this
      ensures Fields() == Apply(old(Fields()), Call.Rootfs(rootfs))
    {
      this.rootfs := rootfs;
    }

    /** `build(true)`: the command line, with no field changed, so a second
        dry run gives the same vector. */
    method Build() returns (cmd: seq<string>)
      ensures cmd == CommandVector(Fields())
    {
      cmd := [];
      cmd := cmd + [PodmanBinary];
      cmd := cmd + ["--cgroup-manager"];
      cmd := cmd + [PodmanCgroupManager];
      cmd := cmd + [action];
      cmd := cmd + args;
      if rootfs != "" {
        cmd := cmd + ["--rootfs"];
        cmd := cmd + [rootfs];
      } else {
        cmd := cmd + [image];
      }
      cmd := cmd + command;
    }

    /** `getNetworkGateway($network)`, given how running the inspection ends. */
    method GetNetworkGateway(network: string, run: Runner, codec: Codec) returns (r: Result<string>)
      ensures r == Gateway(network, run(InspectCommand(network)), codec)
    {
      var outcome := run(InspectCommand(network));
      var inspected := InspectedNetwork(network, outcome, codec);
      if inspected.Err? {
        return Err(inspected.error);
      }
      var net := inspected.value;
      if net.JString? {
        return Err(StringOffset);
      }
      var range := ScanPlugins(Read(net, "plugins"));
      var text := Coerce(Str, range, GatewayReturn);
      if text.Err? {
        return Err(text.error);
      }
      return Ok(text.value.s);
    }

    /** `findUserIP($uid, $network = "", $subtract = 1000)`. */
    method FindUserIP(uid: int, run: Runner, codec: Codec, network: string := "", subtract: int := 1000)
      returns (r: Result<string>)
      ensures r == UserIp(this.network, uid, network, subtract, run(InspectCommand(TargetNetwork(this.network, network))), codec)
    {
      var target := network;
      if target == "" {
        target := this.network;
      }
      assert target == TargetNetwork(this.network, network);
      var range := GetNetworkGateway(target, run, codec);
      if range.Err? {
        return Err(range.error);
      }
      r := UserAddress(range.value, uid, subtract);
    }
  }
}
