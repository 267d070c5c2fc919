/** What the library reaches outside PHP for, as values and function-typed
    parameters: the podman binary and its cgroup manager (the static defaults
    of `Podman`), the outcome of running a process, and the JSON and base64
    codecs. */
module Externals {
  import opened Failures
  import opened JsonValues

  /** `Podman::$podman`. */
  const PodmanBinary: string := "/usr/bin/podman"

  /** `Podman::$cgroupManager`. */
  const PodmanCgroupManager: string := "cgroupfs"

  /** What a finished `Process` reports: `isSuccessful()`, `getOutput()` and
      `getErrorOutput()`. */
  datatype ProcessOutcome = ProcessOutcome(successful: bool, output: string, errorOutput: string)

  /** Running a command line to completion. */
  type Runner = seq<string> -> ProcessOutcome

  /** `json_decode` (a syntax error decodes to null), `json_encode`,
      `base64_encode` and `base64_decode` (None for its `false`). The real
      `json_decode` never yields an object with a repeated key (the last
      occurrence wins); lookups on a `JObject` read its first member with a
      key, so the two agree on every value `json_decode` can produce. */
  datatype Codec = Codec(
    jsonDecode: string -> Json,
    jsonEncode: Json -> string,
    base64Encode: string -> string,
    base64Decode: string -> Option<string>)

  /** `json_decode(base64_decode(s))`: a `false` from the base64 decoder is
      passed on as the empty string. */
  function DecodeBase64Json(codec: Codec, s: string): Json {
    var text := codec.base64Decode(s);
    codec.jsonDecode(if text.Some? then text.value else "")
  }

  /** `base64_encode(json_encode(v))`. */
  function EncodeBase64Json(codec: Codec, v: Json): string {
    codec.base64Encode(codec.jsonEncode(v))
  }
}
