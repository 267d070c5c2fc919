# cputils in Dafny

A model of the core of `infinyhost/cputils`, a PHP library for cPanel
servers that manage per-user podman containers. It models five parts.

- **The command-line builder.** `Containers\Builder` is a fluent builder of
  podman command lines.
  - Each setter either appends flag tokens to `args` or overwrites a scalar
    field.
  - `build(true)` assembles the vector: the podman binary, the process-wide
    cgroup manager, the action, the arguments, the root filesystem or the
    image, and the command.
- **Gateway lookup.** Two lookups find the gateway of a podman network from
  the decoded output of `podman network inspect`, then derive each user's
  address from it with `ip2long`/`long2ip` arithmetic.
  - `Network` looks at the subnets first, then at the CNI plugins.
  - The builder's own `getNetworkGateway`/`findUserIP` look at the plugins
    only.
- **Entities.** `Container`, `ContainerState`, `NetworkSettings` and `Pod`
  are objects with typed properties.
  - They are hydrated from decoded `podman inspect` output by `__fromArray`
    and `__fromJson`.
  - They are exported by `__toArray` and named by `__toString`.
  - `Container::load` classifies a failed inspection.
- **The admin binary.** `AdminBin` is the privileged side of a cPanel admin
  binary.
  - It parses the request line `<command> <base64 of JSON>` against a
    command whitelist.
  - It checks the caller's uid.
  - It keeps the `{status, error, data}` envelope that `fail`, `success` and
    the error handlers overwrite.
- **The admin client.** `AdminClient::call` is the unprivileged side: it
  sends the arguments through cPanel's `uapi` and unwraps the response.

## How the model is organised

- **Value modules:**
  - `Failures`: Option, Result and the exceptions raised.
  - `PhpStrings`: int printing, `trim`, the `(int)` cast, integer numeric
    strings and `explode` with limit 2.
  - `JsonValues`: decoded JSON, with ordered objects, `isset`/`??` reads,
    and `$a[k] = v` on string-keyed arrays.
  - `DottedQuad`: `ip2long` and `long2ip`.
  - `TypedProperties`: typed-property assignment with PHP's coercions, the
    property lists of `__fromArray` and `__toArray`, and their generic
    lemmas.
  - `Externals`: the podman defaults, process outcomes and codecs.
- **One module per source class:** `Builders`, `Networks` (with
  `NetworkInspect`, which both gateway lookups share), `Containers`,
  `ContainerStates`, `NetSettings`, `Pods`, `AdminBins` and
  `AdminClients`.
  - Each class whose fields the PHP code updates in place is a Dafny
    `class`: `Builder`, `Container`, `ContainerState`, `NetworkSettings`,
    `Pod` and `AdminBin`.
  - Each such method is proved against a function on values, and the
    function carries the lemmas.
  - `AdminClient::call` is a pure function.
- **How state is represented:**
  - An object with typed properties holds them as a map from property name
    to value. A property that was never assigned is absent from the map, and
    reading it is an error, as in PHP.
  - A PHP exception, an engine `TypeError`, and the `Error` raised on an
    uninitialised property are all `Err` values.
  - A hydration that throws keeps the properties assigned before the throw.
- **What becomes a parameter:**
  - running a process: a `Runner` giving the `ProcessOutcome`;
  - `json_decode`, `json_encode`, `base64_encode` and `base64_decode`: the
    `Codec` functions;
  - `posix_getpwuid`: a `PasswdLookup`;
  - cPanel's `uapi`: a `Uapi`;
  - stdin: the read contents.

`userContainerIP` with the default offset gives uid 1100 in a network whose
gateway is `192.168.4.1` the address `192.168.4.102`, because the code adds
one after subtracting the offset. This holds as written
(`Networks.DefaultOffsetExample`).

## Model

| member | source | states |
|---|---|---|
| Builders.Apply | src/Containers/Builder.php:39-511 | Every setter leaves `args` equal to the old `args` followed by exactly that call's tokens: a flag alone, a flag and its argument, `-e k=v`, `-v s:d`, `-p s:d`, `--name n` or `--network n`. |
| Builders.ScalarFields | src/Containers/Builder.php:39-65 | Each setter overwrites only its own scalar field (`action`, `image`, `rootfs`, `command`, `name`, `network`, `subject`, `cgroupManager`) and no other scalar field. |
| Builders.ScalarKeepsArgs | src/Containers/Builder.php:138-153 | `cgroupManager`, `action`, `subject`, `image`, `command` and `rootfs` are exactly the setters that leave `args` unchanged. |
| Builders.RunArgs | src/Containers/Builder.php:526 | A chain of setter calls appends exactly the calls' tokens, in call order, after the earlier arguments. |
| Builders.RunSnoc | src/Containers/Builder.php:39-511 | Running a chain and then one more call is running the extended chain. |
| Builders.RunCommand | src/Containers/Builder.php:149-153 | After a chain, the command is that of the last `command(...)` call, or the initial one if there is none. |
| Builders.CommandVector | src/Containers/Builder.php:513-541 | The built vector has length 4 + the number of arguments + 2 with a root filesystem (1 without) + the number of command tokens. |
| Builders.VectorLayout | src/Containers/Builder.php:516-537 | The vector starts with `[/usr/bin/podman, --cgroup-manager, cgroupfs, action]`, then `args` in order. It then has `--rootfs r` when a root filesystem is set and otherwise exactly one image token (possibly empty). The command comes last. |
| Builders.UnusedFields | src/Containers/Builder.php:521 | The builder's own `cgroupManager(...)` and `subject(...)` never change the vector: the process-wide manager is used instead. |
| Builders.CommandReplaced | src/Containers/Builder.php:149-153 | A second `command(...)` discards the first instead of appending to it. |
| Builders.TestHeadFields | tests/Unit/BuilderTest.php:28-32 | `name`, `image`, `ip`, `port` and `volume` append their tokens (joined with `:` where two values are given) and set `name` and `image`. |
| Builders.TestOptionsFields | tests/Unit/BuilderTest.php:33-37 | `env`, `user`, `group`, `memory` and `cpus` append only their tokens, with `env` joined by `=`. |
| Builders.TestLimitsFields | tests/Unit/BuilderTest.php:38-42 | The CPU share, period, quota and cpuset setters append only their flag and value pairs. |
| Builders.ShareFields | tests/Unit/BuilderTest.php:38-40 | `cpuShares`, `cpuPeriod` and `cpuQuota` append only their flag and value pairs. |
| Builders.CpusetFields | tests/Unit/BuilderTest.php:41-42 | `cpusetCpus` and `cpusetMems` append only their flag and value pairs. |
| Builders.TestTailFields | tests/Unit/BuilderTest.php:43-47 | The blkio setters append their pairs. `action`, `subject` and `cgroupManager` set their fields only. |
| Builders.TestVectorBuilt | tests/Unit/BuilderTest.php:25-91 | For any values of the test's arguments, the test's setter chain on a new builder builds the expected golden vector, with the image last. |
| Builders.TestLayout | tests/Unit/BuilderTest.php:49-90 | Fields holding the test's tokens, the `run` action and no root filesystem or command give the golden vector. |
| Builders.PluginsGateway | src/Containers/Builder.php:271-281 | The builder's lookup gives the first plugin gateway, or `''` when no plugin has one. A string as network 0 is a string-offset TypeError. |
| Builders.TargetNetwork | src/Containers/Builder.php:300-302 | `findUserIP` inspects its argument, or the builder's own network when the argument is empty. |
| Builders.Gateway | src/Containers/Builder.php:262-286 | A failed inspection is the lookup's error, naming the network and the error output. |
| Builders.UserIp | src/Containers/Builder.php:295-314 | An address `findUserIP` returns is a dotted quad that `ip2long` accepts. |
| Builders.GatewayOfPlugins | src/Containers/Builder.php:262-286 | `getNetworkGateway` returns `''` without any plugin gateway, returns a text gateway as it is, and fails the `string` return type on an array gateway. |
| Builders.AgreesWithNetwork | src/Containers/Builder.php:262-286 | With no subnet gateway and a non-empty text plugin gateway, the builder's lookup and `Network::userContainerGateway` return the same gateway. |
| Builders.NoGatewayAddress | src/Containers/Builder.php:295-314 | Without any plugin gateway `findUserIP` does not fail on the lookup: `ip2long('')` counts as 0. The address is `long2ip(uid - subtract + 1)` when no step of the sum leaves PHP's 64-bit ints, and otherwise `long2ip`'s TypeError on a float. |
| Builders.EmptyGatewayAddress | src/Containers/Builder.php:306-309 | The user address for an empty gateway is `long2ip(uid - subtract + 1)`, or the float TypeError when the sum overflows. |
| Builders.UserIpOfGateway | src/Containers/Builder.php:295-314 | After a successful lookup, `findUserIP` is the user address of the gateway: when the sum stays within 64-bit ints it parses back to the gateway's number plus `uid - subtract + 1`, modulo 2^32, and otherwise it is the float TypeError. |
| Builders.UserIpErrors | src/Containers/Builder.php:304-305 | A failed gateway lookup is `findUserIP`'s error. |
| Builders.Builder.constructor | src/Containers/Builder.php:10-32 | A new builder has no args, action `run`, subject `container`, network `podman`, manager `cgroupfs` and every other field empty. |
| Builders.Builder.CgroupManager | src/Containers/Builder.php:39-43 | Sets the builder's manager field only. |
| Builders.Builder.Action | src/Containers/Builder.php:50-54 | Sets the action only. |
| Builders.Builder.Subject | src/Containers/Builder.php:61-65 | Sets the subject only. |
| Builders.Builder.Toggle | src/Containers/Builder.php:72-118 | `interactive`, `tty`, `daemon`, `remove`, `replace` (and `detach`) append their one flag. |
| Builders.Builder.Set | src/Containers/Builder.php:373-511 | The flag-and-value setters (`restart` … `workdir`, `ip`, `cGroupParent`, `hostname`, `label` … `pod`) append their flag, then their value. |
| Builders.Builder.Name | src/Containers/Builder.php:125-131 | Appends `--name n` and records `n` in the name field. |
| Builders.Builder.Image | src/Containers/Builder.php:138-142 | Sets the image only. |
| Builders.Builder.Command | src/Containers/Builder.php:149-153 | Replaces the command. |
| Builders.Builder.Env | src/Containers/Builder.php:162-167 | Appends `-e key=value`. |
| Builders.Builder.Volume | src/Containers/Builder.php:176-181 | Appends `-v source:destination`. |
| Builders.Builder.Port | src/Containers/Builder.php:189-194 | Appends `-p source:destination`. |
| Builders.Builder.Network | src/Containers/Builder.php:201-207 | Appends `--network n` and records `n` in the network field. |
| Builders.Builder.Rootfs | src/Containers/Builder.php:345-349 | Sets the root filesystem only. |
| Builders.Builder.Build | src/Containers/Builder.php:513-541 | A dry run returns the command vector of the current fields and changes nothing, so a second dry run gives the same vector. |
| Builders.Builder.GetNetworkGateway | src/Containers/Builder.php:262-286 | The inspected network's first plugin gateway as text, or `''`. Failed inspections and undecodable output give their errors. |
| Builders.Builder.FindUserIP | src/Containers/Builder.php:295-314 | The lookup of the target network, then the user address of its gateway, with offset 1000 by default; lookup errors and the float TypeError on overflow pass through. |
| Networks.SubnetGateway | src/Network.php:35-36 | The first subnet's gateway, when set, is never null. |
| Networks.GatewayOf | src/Network.php:34-58 | A found gateway is never `''` and never null. |
| Networks.Gateway | src/Network.php:24-59 | A failed inspection is the lookup's error. A gateway found is never `''` and never null. |
| Networks.UserContainerGateway | src/Network.php:24-59 | Returns the gateway of the first subnet, else that of the first plugin with one, else the rootless-info or range-info error. Inspection errors come first. |
| Networks.UserIp | src/Network.php:9-22 | An address `userContainerIP` returns is a dotted quad that `ip2long` accepts. |
| Networks.UserContainerIP | src/Network.php:9-22 | The gateway is coerced to text for `ip2long` (an array is a TypeError) and moved to the user's address, with network `Customers` and offset 1000 by default. A sum that overflows 64-bit ints is `long2ip`'s TypeError. |
| Networks.SubnetGatewayFirst | src/Network.php:35-36 | A subnet gateway wins and the plugins are not consulted. An empty one gives the range error. |
| Networks.NoPluginsIsRootless | src/Network.php:38-40 | No subnet gateway and no `plugins` fails with "Failed getting network rootless info.". |
| Networks.FirstPluginWins | src/Network.php:41-49 | Without a subnet gateway, the first plugin having `ipam.ranges[0][0].gateway` wins. Earlier plugins, with or without `ipam`, have none. |
| Networks.NoPluginGateway | src/Network.php:55-57 | Plugins without any gateway give "Failed getting network range info". |
| Networks.InspectionErrors | src/Network.php:29-33 | A failed inspection, or output that is not a non-empty array, is a RuntimeException before any gateway is looked for. |
| Networks.UserIpOfGateway | src/Network.php:9-17 | For a dotted-quad gateway `g`, the address parses back to `(g - subtract + uid + 1) mod 2^32` whenever the sum stays within 64-bit ints, and is the float TypeError otherwise. The address error of lines 18-20 is never raised. |
| Networks.UserIpOfText | src/Network.php:11-17 | A text gateway is passed to `ip2long` as it is: the result is the user address of that text. |
| Networks.UserIpErrors | src/Network.php:11-14 | A failed lookup is `userContainerIP`'s error, and an array gateway is the TypeError of `ip2long`'s `string` parameter. |
| Networks.DefaultOffsetExample | src/Network.php:9-17 | uid 1100 with offset 1000 and gateway `192.168.4.1` gets `192.168.4.102`. |
| NetworkInspect.PluginGateway | src/Network.php:42-47 | A plugin's `ipam.ranges[0][0].gateway`, when set, is never null. |
| NetworkInspect.FirstGateway | src/Network.php:41-49 | The first plugin gateway found, if any, is never null. |
| NetworkInspect.FirstGatewayAt | src/Network.php:41-49 | A plugin with a gateway that has only gateway-less plugins before it is the one found. |
| NetworkInspect.FirstGatewayNone | src/Network.php:41-49 | Plugins none of which has a gateway give none. |
| NetworkInspect.FirstGatewayFound | src/Network.php:41-49 | A gateway is found exactly when some plugin has one, and it is then that of the first such plugin. |
| NetworkInspect.FirstWithGateway | src/Network.php:41-49 | The index of the first plugin with a gateway, or the plugin count. Every plugin before it has no gateway. |
| NetworkInspect.ScanPlugins | src/Network.php:41-49 | The `foreach` loop with `break` returns the first plugin gateway, or `''` when no plugin has one. |
| NetworkInspect.InspectedNetwork | src/Network.php:27-34 | A failed inspection fails naming the network. Output that is not a non-empty array fails naming the decoded value. Otherwise the result is element 0. |
| NetworkInspect.InspectCommand | src/Network.php:27 | The lookup runs the podman binary with `network inspect` and the network as its last argument. |
| NetworkInspect.GatewayNumber | src/Network.php:14 | `ip2long` of the gateway, with `false` counted as 0, is below 2^32. |
| NetworkInspect.UserAddress | src/Network.php:14-17 | `long2ip` of the gateway's number minus the offset plus `uid + 1` succeeds exactly when each step of the sum stays within PHP's 64-bit ints. It then parses back to that sum modulo 2^32; otherwise it is the TypeError `long2ip` raises on a float. |
| NetworkInspect.UserAddressOfGateway | src/Network.php:14-17 | For a gateway `ip2long` accepts as `g`: `long2ip(g - subtract + uid + 1)` without overflow, the float TypeError with it. |
| NetworkInspect.AccountUidsFit | src/Network.php:16 | Uids and offsets below 2^32, as account uids are, never overflow: an address is always produced. |
| NetworkInspect.MaxUidOverflows | src/Network.php:16-17 | The largest PHP int as uid, on a gateway at or past the offset, overflows into a float, which `long2ip` refuses. |
| NetworkInspect.FirstUserAfterGateway | src/Network.php:16 | The user whose uid equals the offset gets the address right after the gateway, whenever the first subtraction does not overflow. |
| NetworkInspect.UserAddressesDistinct | src/Network.php:16-17 | Two different uids less than 2^32 apart never share an address: when the first gets one, the second's outcome differs. |
| Containers.Declared | src/Containers/Container.php:86-138 | The scalar assignments name each property once with a typed default. `__toArray` exports a subset of them then `State`, and only defaulted ones (`Mounts`) are not exported. |
| Containers.Export | src/Containers/Container.php:122-138 | `__toArray` succeeds exactly when the eleven exported scalars and the state's own export are there. Its members are `Id` … `Pod` equal to the properties, then `State`; `Mounts` and `NetworkSettings` are omitted. |
| Containers.Describe | src/Containers/Container.php:117-120 | `__toString` is `Id`, and an error while `Id` is unassigned. |
| Containers.InspectCommand | src/Containers/Container.php:76 | `load` runs the podman binary with `inspect --type container` and the name as its last argument. |
| Containers.JsonArgument | src/Containers/Container.php:110-113 | A decoded non-empty list passes on its first item, an empty one null, and a non-array passes on unchanged. |
| Containers.Hydrate | src/Containers/Container.php:86-106 | A hydration without failure created both a state and network settings, and network settings are only ever created after a state. |
| Containers.HydrateObjects | src/Containers/Container.php:101-105 | After the scalars, a new state object is always stored. Its hydration result decides whether new network settings follow. |
| Containers.HydrateSucceedsIff | src/Containers/Container.php:86-106 | Hydration succeeds exactly when the scalar keys conform (required `Id`, `Created`, `Path`, `Args`) and `State` and `NetworkSettings` are arrays from which a state and network settings hydrate. |
| Containers.HydrateOrder | src/Containers/Container.php:86-106 | A scalar failure creates no new objects. Once the scalars are assigned, a new state is stored even if `State` is not an array. Network settings are replaced only after the state hydrated. |
| Containers.HydratedScalars | src/Containers/Container.php:88-99 | Required keys are copied, and defaulted keys are copied or take `[]`, `''` or `0`. Values already of the property's type are copied verbatim. |
| Containers.ExportAfterHydrateFails | src/Containers/Container.php:101-102 | A freshly hydrated container cannot be exported, because its new state never had `Exited` assigned. |
| Containers.HydratedPrefix | src/Containers/Container.php:86-106 | A successful hydration assigned the scalars and hydrated a state. |
| Containers.HydratedNames | src/Containers/Container.php:88-99 | Once the scalars are assigned, every exported scalar is assigned. |
| Containers.ExportOfFailingState | src/Containers/Container.php:136 | With every scalar assigned, exporting fails exactly as the state's export does. |
| Containers.ExportMembers | src/Containers/Container.php:122-138 | The export of a complete container is a property export over the eleven scalars and `State`. |
| Containers.ExportedObjects | src/Containers/Container.php:122-138 | In such an export `State` holds the state's export and `NetworkSettings` is absent. |
| Containers.RoundTripSetup | src/Containers/Container.php:86-138 | Hydrating from a complete container's export assigns the scalars back (`Mounts` defaulted). It finds the state's export under `State` and null under `NetworkSettings`. |
| Containers.WithState | src/Containers/Container.php:136 | Adding `State` to a complete container's properties keeps the scalars. |
| Containers.ScalarsFromExport | src/Containers/Container.php:88-99 | Hydrating from an export over the scalars and `State` restores every exported scalar and gives `Mounts` its default. |
| Containers.ExportShape | src/Containers/Container.php:92 | `Mounts`, the fifth scalar, is the only unexported scalar, and it defaults to `[]`. |
| Containers.ExportedPresent | src/Containers/Container.php:122-138 | A container with every scalar and `State` has every exported name. |
| Containers.RoundTripScalars | src/Containers/Container.php:86-138 | Exporting a complete container and hydrating any container from the export restores the eleven exported scalars and defaults `Mounts`. |
| Containers.RoundTripObjects | src/Containers/Container.php:101-105 | The same round trip gives a new state equal to the original's twelve hydrated properties. It then fails on the missing `NetworkSettings`, leaving empty network settings. |
| Containers.Container.constructor | src/Containers/Container.php:12-28 | A new container has no assigned property and no state or settings object. |
| Containers.Container.FromArray | src/Containers/Container.php:86-106 | `__fromArray` in place, allocating fresh state and network-settings objects where hydration creates them. |
| Containers.Container.AssignObjects | src/Containers/Container.php:101-105 | The second half of `__fromArray`, on fresh objects. |
| Containers.Container.AssignState | src/Containers/Container.php:101-102 | Stores a fresh state, then hydrates it. |
| Containers.Container.AssignSettings | src/Containers/Container.php:104-105 | Stores fresh network settings, then hydrates them. |
| Containers.Container.FromJson | src/Containers/Container.php:108-115 | A decoded array's element 0 is hydrated. A non-array is a TypeError that changes nothing. |
| Containers.Container.Load | src/Containers/Container.php:74-84 | A failed inspection throws `ContainerNotFoundException` and changes nothing. A successful one hydrates from its output. |
| Containers.Container.ToArray | src/Containers/Container.php:122-138 | Fails while no state object was stored. On success the export has twelve members, the last being `State` with the state's own export. |
| Containers.Container.ToString | src/Containers/Container.php:117-120 | Fails while `Id` is unassigned, and is the `Id` text once assigned. |
| ContainerStates.Declared | src/Containers/ContainerState.php:23-37 | The twelve assignments are all required and distinct. `__toArray` exports them in order, then `Exited`. |
| ContainerStates.DistinctNames | src/Containers/ContainerState.php:50-67 | The thirteen exported keys are distinct, and `Exited` is not hydrated. |
| ContainerStates.Export | src/Containers/ContainerState.php:50-67 | `__toArray` succeeds exactly when all thirteen properties are assigned, giving them in order. |
| ContainerStates.Describe | src/Containers/ContainerState.php:45-48 | `__toString` is `Status`. |
| ContainerStates.Fresh | src/Containers/ContainerState.php:23 | A non-array argument is rejected before any assignment. |
| ContainerStates.HydrationNeedsEveryKey | src/Containers/ContainerState.php:25-36 | Hydration succeeds exactly when all twelve keys are present, non-null and accepted by their types. Each then holds its input value, verbatim when already of the right type. |
| ContainerStates.ExitedUntouched | src/Containers/ContainerState.php:21-37 | `__fromArray` leaves `Exited` as it was, assigned or not, whatever the outcome. |
| ContainerStates.ExportHydratedState | src/Containers/ContainerState.php:50-67 | After a successful hydration the twelve exported values are those read. The export then succeeds only if `Exited` was already assigned. |
| ContainerStates.ExportOfFreshStateFails | src/Containers/ContainerState.php:65 | Without `Exited`, exporting after hydration fails on `Exited`. |
| ContainerStates.FreshExportFails | src/Containers/ContainerState.php:21-67 | A new state object that hydrated cannot be exported. |
| ContainerStates.ExportAfterHydrate | src/Containers/ContainerState.php:50-67 | With `Exited` assigned, `toArray(fromArray(d))` gives `d`'s twelve values in order, followed by `Exited`. |
| ContainerStates.RoundTrip | src/Containers/ContainerState.php:23-67 | Hydrating from a complete state's export restores all twelve properties and keeps the target's own `Exited`. |
| ContainerStates.ContainerState.constructor | src/Containers/ContainerState.php:9-21 | A new state has no assigned property. |
| ContainerStates.ContainerState.FromArray | src/Containers/ContainerState.php:23-37 | `__fromArray` in place, keeping every property well typed. |
| ContainerStates.ContainerState.FromJson | src/Containers/ContainerState.php:39-43 | Hydrates from the decoded `State` member. A decoded string fails at the read itself, with the string-offset TypeError, and a member that is not an array is the `__fromArray` TypeError; neither changes anything. |
| ContainerStates.ContainerState.AssignExited | src/Containers/ContainerState.php:21 | A caller's write to the public `Exited`. |
| ContainerStates.ContainerState.ToArray | src/Containers/ContainerState.php:50-67 | Succeeds exactly when all thirteen exported properties are assigned, with thirteen members; a state whose `Exited` was never written cannot be exported. |
| ContainerStates.ContainerState.ToString | src/Containers/ContainerState.php:45-48 | Fails while `Status` is unassigned, and is the `Status` text once assigned. |
| NetSettings.Declared | src/Containers/NetworkSettings.php:38-56 | The sixteen assignments are distinct and all defaulted. `__toArray` exports the first fifteen, omitting `Networks`. |
| NetSettings.DistinctExports | src/Containers/NetworkSettings.php:69-88 | The fifteen exported keys are distinct and exclude `Networks`. |
| NetSettings.Export | src/Containers/NetworkSettings.php:69-88 | `__toArray` succeeds exactly when the fifteen exported properties are assigned, giving them in order. |
| NetSettings.Describe | src/Containers/NetworkSettings.php:64-67 | `__toString` is `IPAddress`. |
| NetSettings.Fresh | src/Containers/NetworkSettings.php:38 | A non-array argument is rejected before any assignment. |
| NetSettings.GetNetwork | src/Containers/NetworkSettings.php:25-28 | `getNetwork(n)` is the array entry `Networks[n]`. A missing or non-array entry fails the `array` return type. |
| NetSettings.IpAsWritten | src/Containers/NetworkSettings.php:30-37 | As written, `ip` succeeds exactly for no network name with a non-empty `IPAddress`, and then returns it. |
| NetSettings.Ip | src/Containers/NetworkSettings.php:30-37 | As intended: `ip('')` with a non-empty `IPAddress` returns it. Otherwise the result is the `IPAddress` member of the array `Networks[n]`, and it fails exactly when that member is missing or not convertible to text. |
| NetSettings.HydrationFailsOnlyOnRejectedValue | src/Containers/NetworkSettings.php:40-55 | Hydration never fails on a missing key, only on a present value that its property's type rejects. |
| NetSettings.ExportAfterHydrate | src/Containers/NetworkSettings.php:40-88 | Exporting right after hydration gives, for each exported key in order, the input's value or the default. |
| NetSettings.RoundTrip | src/Containers/NetworkSettings.php:38-88 | Hydrating from an export restores the fifteen exported properties and resets `Networks` to `[]`. |
| NetSettings.IpAsWrittenMissesNetworkAddress | src/Containers/NetworkSettings.php:36 | Settings hydrated from any `Networks` array holding `n => [IPAddress => a]` make `ip(n)` fail as written, while the intended `ip(n)` returns `a`. |
| NetSettings.IpOfNetworksOnly | src/Containers/NetworkSettings.php:36-55 | Settings hydrated from only `Networks` give the intended `ip(n)` of each network entry's address. |
| NetSettings.NetworksOnlyHydrates | src/Containers/NetworkSettings.php:40-55 | Hydrating from only a `Networks` array succeeds and stores it. |
| NetSettings.IpOfHydratedNetwork | src/Containers/NetworkSettings.php:36 | The intended `ip(n)` reads the entry's `IPAddress` from the stored `Networks`. |
| NetSettings.NetworksHydrated | src/Containers/NetworkSettings.php:55 | `Networks` is assigned from the input's `Networks` member when hydration conforms. |
| NetSettings.NetworkSettings.constructor | src/Containers/NetworkSettings.php:7-23 | New settings have no assigned property. |
| NetSettings.NetworkSettings.FromArray | src/Containers/NetworkSettings.php:38-56 | `__fromArray` in place, keeping every property well typed. |
| NetSettings.NetworkSettings.FromJson | src/Containers/NetworkSettings.php:58-62 | Hydrates from the decoded `NetworkSettings` member. A decoded string fails at the read itself, with the string-offset TypeError, and a member that is not an array is the `__fromArray` TypeError; neither changes anything. |
| NetSettings.NetworkSettings.ToArray | src/Containers/NetworkSettings.php:69-88 | Succeeds exactly when the fifteen exported properties are assigned, with fifteen members. |
| NetSettings.NetworkSettings.ToString | src/Containers/NetworkSettings.php:64-67 | Fails while `IPAddress` is unassigned, and is the `IPAddress` text once assigned. |
| NetSettings.NetworkSettings.Network | src/Containers/NetworkSettings.php:25-28 | Fails while `Networks` is unassigned. A network returned is the array stored under its name in `Networks`. |
| NetSettings.NetworkSettings.IpAddress | src/Containers/NetworkSettings.php:30-37 | As written, `ip` on the object succeeds exactly when no network is named and `IPAddress` is non-empty, and then returns `IPAddress`. |
| NetSettings.NetworkSettings.IntendedIpAddress | src/Containers/NetworkSettings.php:30-37 | As evidently intended, `ip` on the object returns a non-empty `IPAddress` when no network is named, and a text `IPAddress` in the `Networks` entry of a named network. |
| Pods.Declared | src/Containers/Pod.php:21-64 | The twelve assignments are distinct and all defaulted. `__toArray` exports exactly them, in the same order. |
| Pods.Export | src/Containers/Pod.php:48-64 | `__toArray` succeeds exactly when all twelve properties are assigned, giving them in order. |
| Pods.Describe | src/Containers/Pod.php:43-46 | `__toString` is `Name`. |
| Pods.HydrationFailsOnlyOnRejectedValue | src/Containers/Pod.php:23-34 | Hydration never fails on a missing key, only on a present value that its property's type rejects. |
| Pods.ExportAfterHydrate | src/Containers/Pod.php:23-64 | `toArray(fromArray(d))[k]` is `d[k]` when present (verbatim, so `Containers` keeps its order) and the default otherwise, for all twelve keys. |
| Pods.RoundTrip | src/Containers/Pod.php:21-64 | `fromArray(toArray(p))` reproduces `p` property for property. |
| Pods.ListHydratesToDefaults | src/Containers/Pod.php:37-41 | `__fromJson` does not unwrap a list: a decoded list has none of the keys, so every property takes its default. |
| Pods.NoIndexNames | src/Containers/Pod.php:8-19 | No pod property name is an integer array key. |
| Pods.Pod.constructor | src/Containers/Pod.php:8-19 | A new pod has no assigned property. |
| Pods.Pod.FromArray | src/Containers/Pod.php:21-35 | `__fromArray` in place, keeping every property well typed. |
| Pods.Pod.FromJson | src/Containers/Pod.php:37-41 | Hydrates from the decoded value itself; a non-array is a TypeError. |
| Pods.Pod.ToArray | src/Containers/Pod.php:48-64 | Succeeds exactly when all twelve properties are assigned, with twelve members. |
| Pods.Pod.ToString | src/Containers/Pod.php:43-46 | Fails while `Name` is unassigned, and is the `Name` text once assigned. |
| AdminBins.InputRequest | src/AdminBin.php:72-100 | A parsed request has a whitelisted, non-empty command without spaces and data that is not loosely null. |
| AdminBins.InputErrors | src/AdminBin.php:79-88 | Input that trims to `''` or `'0'` fails with "Failed parsing AdminBin input from stream". Input without a space fails with "Failed exploding AdminBin input". |
| AdminBins.InputRequestOfLine | src/AdminBin.php:85-99 | The line is split at its first space. The command must be whitelisted ("Invalid AdminBin command provided: " + command) and the rest must decode to a non-null value; the request is then that command and value. |
| AdminBins.RequestRoundTrip | src/AdminBin.php:72-100 | A whitelisted command, a space and `base64(json(d))` parse back to that command and `d` when the codecs invert each other. |
| AdminBins.UserRecord | src/AdminBin.php:107-139 | An accepted user has uid `(int) argv[1]`, at least 1000, and known to the account database. |
| AdminBins.Uid | src/AdminBin.php:109-118 | The uid is -1 without a second argument, and 0 for an argument without any digit. |
| AdminBins.UidOfArgument | src/AdminBin.php:116-118 | A uid argument that is the decimal text of an int is that int. |
| AdminBins.MissingUidRejected | src/AdminBin.php:116-123 | Without a second argument the uid is -1 and is refused as "Invalid AdminBin uid". |
| AdminBins.UserRecordCases | src/AdminBin.php:121-136 | Success exactly for a uid of at least 1000 that the database knows. A lower uid is refused before the lookup, and an unknown one fails with "Failed parsing AdminBin uid". A named entry's name, home and group are copied. |
| AdminBins.ExponentUidAccepted | src/AdminBin.php:117-128 | A uid argument written with an exponent, `"1e3"`, is uid 1000; it passes the uid check, and the account it names is reported. |
| AdminBins.UserParseExample | tests/Unit/AdminBinTest.php:24-34 | `argv = [program, uid]` for a named account gives that account's uid, gid, name and home. |
| AdminBins.Input | src/AdminBin.php:62-65 | `parseInput` succeeds exactly when the user data and the request both parse, and returns the two. |
| AdminBins.InputOrder | src/AdminBin.php:62-65 | `parseInput` reports a bad uid before a bad request, and accepts exactly when both parts are accepted. |
| AdminBins.Envelope | src/AdminBin.php:146-167 | After setting the envelope, `status`, `error` and `data` read back as the values set. |
| AdminBins.Failed | src/AdminBin.php:146-153 | A failed envelope reads `status` false, the message as `error` and null `data`. |
| AdminBins.Succeeded | src/AdminBin.php:160-167 | A succeeded envelope reads `status` true, null `error` and the data. |
| AdminBins.Encoded | src/AdminBin.php:212-215 | The printed text, `base64(json(envelope))`, decodes back to the envelope when base64 decoding undoes base64 encoding on the envelope's JSON and JSON decoding undoes JSON encoding on the envelope. |
| AdminBins.EnvelopeFields | src/AdminBin.php:146-153 | Setting the envelope stores the three values and keeps every other key. |
| AdminBins.Located | src/AdminBin.php:29-39 | The handler's text starts with the message, and equals it when debug is off. |
| AdminBins.HandlerEnvelope | src/AdminBin.php:29-55 | A handler's writes, including the debug-mode location appended to the stored error, amount to failing with the located message. |
| AdminBins.EnvelopeDistinct | src/AdminBin.php:146-167 | Setting the envelope keeps the keys distinct. |
| AdminBins.EnvelopeKeys | src/AdminBin.php:146-167 | An envelope's keys depend on the keys before, not on the values set. |
| AdminBins.EnvelopeOnEnvelope | src/AdminBin.php:146-167 | On an array already holding the three keys, setting the envelope keeps its keys. |
| AdminBins.LastEnvelopeWins | src/AdminBin.php:146-167 | Of two envelope updates in a row (`fail`, `success` or a handler), only the last one remains. |
| AdminBins.EnvelopeInPlace | src/AdminBin.php:13-17 | On the initial three-key envelope the values are replaced in place. |
| AdminBins.FreshFailure | src/AdminBin.php:146-153 | `fail(msg)` on a new admin binary answers `{status: false, error: msg, data: null}`. |
| AdminBins.FreshSuccess | src/AdminBin.php:160-167 | `success(data)` on a new admin binary answers `{status: true, error: null, data: data}`. |
| AdminBins.AdminBin.constructor | src/AdminBin.php:12-20 | A new admin binary has an empty whitelist, debug off, and envelope `{status: true, error: null, data: null}`. |
| AdminBins.AdminBin.Output | src/AdminBin.php:212-215 | Prints the base64 of the JSON of the envelope. |
| AdminBins.AdminBin.ErrorHandler | src/AdminBin.php:29-39 | Fails with the error text (located in debug mode), prints, exits 1, and keeps the whitelist and mode. |
| AdminBins.AdminBin.ExceptionHandler | src/AdminBin.php:45-55 | For an `\Exception` (the runtime, bad-call and container-not-found exceptions), fails with its message (located in debug mode), prints, exits 1, and keeps the whitelist and mode. An engine `TypeError` or `Error` does not match the `\Exception` parameter: the envelope is untouched, nothing is printed, and PHP ends with exit code 255. |
| AdminBins.AdminBin.Fail | src/AdminBin.php:146-153 | Sets `(false, msg, null)`, prints and exits 1. |
| AdminBins.AdminBin.Success | src/AdminBin.php:160-167 | Sets `(true, null, data)`, prints and exits 0. |
| AdminBins.AdminBin.SetCallable | src/AdminBin.php:174-177 | Replaces the whitelist. |
| AdminBins.AdminBin.AddCallable | src/AdminBin.php:184-187 | Appends exactly one command to the whitelist. |
| AdminBins.AdminBin.SetDebug | src/AdminBin.php:193-196 | Sets the debug mode only. |
| AdminBins.AdminBin.SetResult | src/AdminBin.php:203-206 | Replaces the envelope. |
| AdminBins.AdminBin.ParseInputData | src/AdminBin.php:72-100 | Fills the request step by step and agrees with the specification of the request line. |
| AdminBins.AdminBin.ParseUserData | src/AdminBin.php:107-139 | Fills the user data step by step and agrees with the uid check and the account lookup. |
| AdminBins.AdminBin.ParseInput | src/AdminBin.php:62-65 | The user data, then the request. |
| AdminClients.Params | src/AdminClient.php:26 | The request carries `params = base64(json(args))`. |
| AdminClients.Envelope | src/AdminClient.php:27-30 | `cpanelresult.result` is found only in an array response, and is never null. |
| AdminClients.Call | src/AdminClient.php:24-43 | A response without the envelope is "Invalid response from cPanel", a reported error always fails, and an array returned is the decoded `data` of the envelope. |
| AdminClients.ErrorOf | src/AdminClient.php:31-33 | The first error's text becomes the exception message. An array first error is a TypeError. |
| AdminClients.Unwrap | src/AdminClient.php:27-29 | A non-array response, or one without `cpanelresult.result`, raises `BadMethodCallException("Invalid response from cPanel")`. |
| AdminClients.ErrorsBeforeData | src/AdminClient.php:31-33 | A reported error is raised whatever `data` holds. |
| AdminClients.FirstErrorMessage | src/AdminClient.php:31-33 | A text first error is the RuntimeException's message. |
| AdminClients.CallSucceeds | src/AdminClient.php:24-43 | `call` succeeds exactly when the envelope exists, reports no error, and its `data` is set, not loosely null (null, false, 0, `''` or an empty array) and not an array, and decodes to an array. It then returns that array. |
| AdminClients.DataRoundTrip | src/AdminClient.php:35-42 | Data that is `base64(json(x))` for an array `x` gives back `x` when the codecs invert each other. |
| AdminClients.ParamsParseBack | src/AdminClient.php:24-26 | The `params` text put after a whitelisted command on an admin binary's input line parses back to the arguments. |
| AdminClients.EmptyArgumentsRejected | src/AdminClient.php:24 | `call`'s default empty argument array reaches an admin binary as data that it refuses as undecodable. |
| TypedProperties.Coerce | src/Containers/Pod.php:8-19 | Assignment to a typed property without strict types gives a value of the property's type. A value already of that type is kept; null or the wrong kind of value is a TypeError. |
| TypedProperties.ReadProp | src/Containers/Container.php:88-99 | A required key that is missing or null is a TypeError. A defaulted one falls back to a value of the property's type. |
| TypedProperties.AssignAll | src/Containers/Container.php:88-99 | The assignments never unassign a property, and when none throws every listed property is assigned. |
| TypedProperties.AssignAllFailure | src/Containers/Container.php:88-99 | The assignments succeed exactly when every read conforms. A failure is the first non-conforming read, with the earlier properties assigned. |
| TypedProperties.ConformingSucceeds | src/Containers/Container.php:88-99 | Conforming input hydrates without failure. |
| TypedProperties.ConformsCons | src/Containers/Container.php:88-99 | Conformance is conformance of the first read and of the rest. |
| TypedProperties.PrefixCons | src/Containers/Container.php:88-99 | Running the first assignments is running the first one, then the following ones. |
| TypedProperties.AssignAllValues | src/Containers/Container.php:88-99 | Conforming assignments give every property its read value and leave undeclared properties as they were. |
| TypedProperties.AssignedAt | src/Containers/Container.php:88-99 | A property assigned once holds its read value after the assignments. |
| TypedProperties.AssignAllOthers | src/Containers/ContainerState.php:21-37 | A property not assigned by `__fromArray` keeps its value, or stays unassigned, whatever the outcome. |
| TypedProperties.HydrateDefaulted | src/Containers/Pod.php:23-34 | With defaults everywhere, the assignments fail exactly on a present value that the type rejects. |
| TypedProperties.HydrateAbsent | src/Containers/Pod.php:23-34 | With defaults everywhere and no key present, every property takes its default. |
| TypedProperties.HydrateRequired | src/Containers/ContainerState.php:25-36 | With required keys only, the assignments succeed exactly when every key is present, non-null and accepted. |
| TypedProperties.AssignAllTyped | src/Containers/Pod.php:8-34 | The assignments keep every declared property of its declared type. |
| TypedProperties.ExportProps | src/Containers/Pod.php:48-64 | The export succeeds exactly when every listed property is assigned, giving `(name, value)` in order. Otherwise it fails on the first unassigned one. |
| TypedProperties.HydrateExported | src/Containers/NetworkSettings.php:38-88 | Hydrating from an export restores every exported property. Unexported properties must be defaulted. |
| TypedProperties.HydrateExportedAll | src/Containers/Pod.php:21-64 | Hydrating from an export of every property restores them all. |
| TypedProperties.HydrateExportedButLast | src/Containers/NetworkSettings.php:38-88 | Exporting all but the last (defaulted) property and hydrating restores them, and the last takes its default. |
| TypedProperties.ExportHydrated | src/Containers/Container.php:86-138 | Exporting after a conforming hydration gives the values read. |
| TypedProperties.ExportPrefixAssigned | src/Containers/ContainerState.php:50-66 | Exporting a prefix of the hydrated names gives their read values. |
| TypedProperties.ExportPropsSnoc | src/Containers/ContainerState.php:50-67 | Exporting one more property appends it, or fails on it if it is unassigned. |
| TypedProperties.ExportAllAssigned | src/Containers/Pod.php:23-64 | Exporting every hydrated name after a conforming hydration gives the read values. |
| TypedProperties.ExportAfterAssignAll | src/Containers/ContainerState.php:23-67 | Hydrating and then exporting one more, unhydrated, property depends on whether that property was already assigned. |
| TypedProperties.DistinctUnsnoc | src/Containers/ContainerState.php:50-67 | Names that stay distinct with one more appended were distinct and lacked it. |
| JsonValues.Values | src/Network.php:41 | The values `foreach` visits, in order, and nothing for a non-array. |
| JsonValues.FirstIndex | src/AdminBin.php:146-153 | The position of a key's first member, none earlier having the key. |
| JsonValues.LookupFirst | src/Network.php:35-47 | A lookup finds nothing exactly when no member has the key, and otherwise the value of the first one. |
| JsonValues.At | src/Network.php:34 | An object reads by key, a list by canonical integer key only, and a non-array has no keys. |
| JsonValues.Get | src/Network.php:35-38 | The `isset`/`??` read: set exactly when the key is there with a non-null value. |
| JsonValues.Read | src/Containers/Container.php:102 | A plain read `$a[k]` is the set value, and null where `isset` fails. |
| JsonValues.StringOf | src/AdminClient.php:32 | The string conversion of an array is "Array", and it is empty exactly for null, false and `''`. |
| JsonValues.LooselyNull | src/AdminClient.php:35 | For a non-array, `== null` holds exactly when its string conversion is empty or it is 0; an array equals null only when empty. |
| JsonValues.Index0 | src/Network.php:34 | `[0]` of a list is its first item when not null. |
| JsonValues.Put | src/AdminBin.php:146-153 | `$a[k] = v` stores `v` under `k`, growing the array only when `k` was missing. |
| JsonValues.PutOthers | src/AdminBin.php:146-153 | `$a[k] = v` changes no other key. |
| JsonValues.PutExisting | src/AdminBin.php:146-153 | Writing an existing key overwrites it in place. |
| JsonValues.PutMissing | src/AdminBin.php:146-153 | Writing a missing key appends it. |
| JsonValues.PutKeysOf | src/AdminBin.php:146-153 | The keys after a write depend only on the keys before it. |
| JsonValues.PutTwice | src/AdminBin.php:32-34 | The second of two writes to a key is the one that counts. |
| JsonValues.PutDistinct | src/AdminBin.php:146-153 | A write keeps the keys distinct. |
| JsonValues.SameArrays | src/AdminBin.php:146-153 | Arrays with distinct keys, equal key order and equal values are equal. |
| DottedQuad.JoinSplit | src/Network.php:14 | Splitting at a separator loses nothing. |
| DottedQuad.Octets | src/Network.php:17 | The four octets of a 32-bit number pack back to it. |
| DottedQuad.Ip2Long | src/Network.php:14 | `ip2long` accepts exactly four canonical decimal octets below 256, giving a number below 2^32. |
| DottedQuad.Ip2LongOfFormat | src/Network.php:14-17 | Formatting a number and parsing it back gives the number. |
| DottedQuad.FormatOfIp2Long | src/Network.php:14-17 | Every accepted dotted quad is the canonical format of its number. |
| DottedQuad.Ip2LongIff | src/Network.php:14-17 | `ip2long` and the formatter are inverse bijections between dotted quads and numbers below 2^32. |
| DottedQuad.Long2Ip | src/Network.php:17 | `long2ip` of any int is an address that parses back to the int modulo 2^32. |
| PhpStrings.NatToString | src/AdminBin.php:34 | The decimal text of a natural number is digits with no leading zero. |
| PhpStrings.DigitsValueOfNatToString | src/AdminBin.php:117 | Reading back the decimal text gives the number. |
| PhpStrings.NatToStringOfDigitsValue | src/AdminBin.php:117 | A digit run with no leading zero is the text of its value. |
| PhpStrings.Trim | src/AdminBin.php:79 | `trim` is the infix that neither starts nor ends with a trim character, with only trim characters dropped around it. |
| PhpStrings.TrimUnchanged | src/AdminBin.php:79 | A string with no trim character at either end is its own trim. |
| PhpStrings.IntCastSign | src/AdminBin.php:117 | The `(int)` cast of text without any digit is 0, and only text with a minus sign casts to a negative int. |
| PhpStrings.IntCastScientific | src/AdminBin.php:117 | Digits, an `e` and exponent digits cast to the digits' value shifted left by the exponent, so `(int)"1e3"` is 1000. |
| PhpStrings.IntCastDecimalScientific | src/AdminBin.php:117 | Digits, a point, fraction digits and an exponent cast to the value of all the digits, shifted by the exponent less the number of fraction digits and truncated toward zero. |
| PhpStrings.IntCastExponentExample | src/AdminBin.php:117 | `(int)"1e3"` is 1000. |
| PhpStrings.IntCastFractionExponentExample | src/AdminBin.php:117 | `(int)"1.5e3"` is 1500. |
| PhpStrings.IntCastTruncatesExample | src/AdminBin.php:117 | `(int)" -2.5"` is -2: white space is skipped and the fraction is truncated toward zero. |
| PhpStrings.IntCastTrailingExample | src/AdminBin.php:117 | `(int)"12abc"` is 12 and `(int)"1e"` is 1: text after the number is ignored, and so is an `e` without exponent digits. |
| PhpStrings.IntegerText | src/Containers/Pod.php:33 | The value of integer-shaped text (white space, sign, digits, white space) is that of its `(int)` cast. |
| PhpStrings.IntegerTextOfIntToString | src/Containers/Pod.php:33 | Every int's text is integer-shaped text of that int. |
| PhpStrings.NumericInt | src/Containers/Pod.php:33 | An int-typed property accepts integer-shaped text exactly when its value is a 64-bit int, and then stores its `(int)` cast. |
| PhpStrings.IntCastOfIntToString | src/AdminBin.php:117 | `(int)` of an int's text gives the int. |
| PhpStrings.NumericIntOfIntToString | src/Containers/Pod.php:33 | The text of a 64-bit int is accepted as that int. |
| PhpStrings.NumericIntOutOfRange | src/Containers/Pod.php:33 | The text of an int beyond 64 bits is refused, as PHP refuses `"9223372036854775808"`. |
| PhpStrings.ExplodeOnce | src/AdminBin.php:85 | `explode(' ', s, 2)` gives `s` when there is no space, and otherwise the text before the first space and the rest. |
| PhpStrings.ExplodeAtFirst | src/AdminBin.php:85-88 | Exploding `c + ' ' + p`, with no space in `c`, gives back `c` and `p`. |

## Left out

- Running processes (`Builder::exec`, the executing paths of `run`, `create` and `start`, and `Container::quickCreate`, `start`, `stop`, `kill` and `remove`) is not modelled. It is I/O; when a process does run in the model, that run is a `Runner` parameter that gives its outcome.
- `src/Podman.php` is not part of this model beyond its two static defaults, which are the constants `/usr/bin/podman` and `cgroupfs`.
- `src/CpanelHook.php` and `src/Interfaces/OCISpecs.php` are not part of this model. They are a stdin read and an interface without behaviour.
- `__fromContainer` and `jsonSerialize` are not modelled: the first is an empty stub and the second only delegates to `__toArray`.
- The JSON and base64 codecs, the account database (`posix_getpwuid`) and cPanel's `uapi` are function parameters, so properties that need them to invert each other take that as a precondition.
- Reading stdin, `$_SERVER['argv']`, `echo`, `exit` and `set_error_handler` are not modelled, because they are I/O.
  - The read contents and argv are parameters.
  - Each exit code is an out-parameter.
  - A failed `file_get_contents` is the value `None`, which the request parser refuses as "Failed parsing AdminBin input from stream". In PHP, once an `AdminBin` is constructed, its error handler is installed, and `@` does not stop a handler set with `set_error_handler` from being called. The read's warning therefore reaches `errorHandler`, which prints the warning's envelope and exits 1 before the parser's own check. The same holds for the other warnings of the source, such as "Undefined array key". The model does not route warnings to the handler.
- Floating point is not modelled: a JSON number is an int.
- In the `in_array` whitelist check, PHP's loose comparison is modelled as string equality. The whitelist holds strings and the command is a string, so the two differ only for numeric strings.
- PhpStrings.IntCast: PHP reads a number with a fraction or an exponent as a double, then converts that to an int. The model truncates the exact decimal value instead. So it differs where the nearest double lies across an integer: `"0.99999999999999999"` casts to 1 in PHP and to 0 here. It also leaves out how PHP treats values beyond the 64-bit range, which it never returns as they are.
- TypedProperties.Coerce: only integer numeric strings within PHP's 64-bit ints are accepted for an int property, leading-numeric strings (with their warning) are not, and floats are absent. PHP reads an integer string just below -2^63 as a double that rounds to PHP_INT_MIN and accepts it; the model refuses it.
- AdminBins.AdminBin.SetResult: its precondition asks for distinct keys, which every PHP array has. The PHP `array` parameter also accepts list keys, which the envelope model does not represent.
- Builders.TestVectorBuilt: the test's integer arguments are their decimal text, and the second argument it passes to `blkioWeightDevice`, which PHP drops, is not represented.
- Builders.Builder.Set: `user()` has no parameter type in PHP. The model takes its argument as text.
- The declared `string` returns of `Builder::run`, `create` and `start`, which actually return a `Container`, are not modelled with the executing paths.
- The `$result === false` branches of `userContainerIP` and `findUserIP` cannot be reached: `long2ip` never returns `false` on a 64-bit build. `Networks.UserIpOfGateway` and `Builders.UserIpOfGateway` show that the address is produced whenever the sum fits in 64-bit ints, and that the only other outcome is `long2ip`'s TypeError. No member models the "Failed getting IP address" error.
- NetworkInspect.UserAddress: a step of `$range - $subtract + $uid + 1` that leaves 64-bit ints is modelled as an error even when later steps would bring the float back into range, or when float rounding would land exactly on -2^63. PHP passes such a float to `long2ip`, which then accepts it as an int and returns an address. The model reports the float TypeError for every overflowing step, since the float arithmetic is not modelled.
- AdminBins.AdminBin.ExceptionHandler: an uncaught engine `Error` (a `TypeError`, or the `Error` of an uninitialised property) does not match the handler's `\Exception` parameter. PHP then ends with a fatal "Uncaught TypeError" message and exit code 255. The model gives the exit code and the untouched envelope, but not the message text.
- `ContainerNotFoundException` is not part of the source files modelled. The model takes it to extend `\Exception`, as its use in `Container::load` suggests, so the exception handler accepts it.
- Decoded JSON objects have distinct keys, because `json_decode` keeps the last of repeated keys. A `Json` object value may hold repeated keys, and the model's first-match lookup agrees with PHP only on objects with distinct keys, as every decoded one is.
- The message PHP prints for a missing array offset ("Undefined array key") is a warning. The model has only its effect, a read that gives null; where an `AdminBin` error handler is installed, the warning reaches the handler instead, as described above.
- `tests/Unit/AdminBinTest.php` calls a misspelled `paarseInputData` and passes a string to `setCallable(array)`. Neither is reproduced; the parser is modelled on its read contents.

## Findings

| source | as written | input that shows it | evidently intended | confidence | as-written member | corrected member |
|---|---|---|---|---|---|---|
| src/Containers/NetworkSettings.php:36 | `ip($network)` reads `$this->Networks[$network]->IPAddress`, a property access on an array entry, which gives null. The `string` return type then rejects it, so `ip` fails whenever a network is named. | Settings hydrated from `['Networks' => ['podman' => ['IPAddress' => '10.88.0.2']]]`, then `ip('podman')` | return `$this->Networks[$network]['IPAddress']`, here `10.88.0.2` | not executed | NetSettings.IpAsWritten, NetSettings.NetworkSettings.IpAddress, NetSettings.IpAsWrittenMissesNetworkAddress | NetSettings.Ip, NetSettings.NetworkSettings.IntendedIpAddress, NetSettings.IpOfHydratedNetwork |
