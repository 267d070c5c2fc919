/** `AdminClient`: the unprivileged side of an admin binary call. It sends
    the arguments through cPanel's `uapi` as base64 of JSON and unwraps the
    `cpanelresult.result` envelope of the response: a reported error wins,
    then `data` must be the base64 of the JSON of an array. */
module AdminClients {
  import opened Failures
  import opened JsonValues
  import opened Externals
  import opened PhpStrings
  import AdminBins

  /** The function `call` asks for when none is given. */
  const DefaultFunction: string := "wrapper"

  const InvalidResponse: Exception := BadMethodCallException("Invalid response from cPanel")
  const InvalidData: Exception := RuntimeException("Invalid data response")

  /** `count` on a set `errors` that is neither an array nor countable. */
  const ErrorsNotCountable: Exception := TypeError("count(): Argument #1 ($value) must be of type Countable|array")

  /** `new RuntimeException($errors[0])` with an array first error. */
  const ErrorNotText: Exception := TypeError("RuntimeException::__construct(): Argument #1 ($message) must be of type string, array given")

  /** `base64_decode($data)` with an array `data`. */
  const DataNotText: Exception := TypeError("base64_decode(): Argument #1 ($string) must be of type string, array given")

  /** `$cpanel->uapi($module, $function, $arguments)`: cPanel's answer. */
  type Uapi = (string, string, Json) -> Json

  /** The arguments passed to `uapi`: `['params' => base64 of the JSON of $args]`. */
  function Params(codec: Codec, args: PhpArray): (p: Json)
    ensures Get(p, "params") == Some(JString(EncodeBase64Json(codec, args)))
  {
    JObject([("params", JString(EncodeBase64Json(codec, args)))])
  }

  /** The exception raised for the first reported error: its text, an unset
      key 0 reading as null and so as "". */
  function ErrorOf(first: Json): (e: Exception)
    ensures first.IsArray() <==> e == ErrorNotText
    ensures !first.IsArray() ==> e == RuntimeException(StringOf(first))
  {
    if first.IsArray() then ErrorNotText else RuntimeException(StringOf(first))
  }

  /** `$response['cpanelresult']['result']` when the response is an array and
      that chain is set. */
  function Envelope(response: Json): (r: Option<Json>)
    ensures r.Some? ==> response.IsArray() && r.value != JNull
  {
    if response.IsArray() then GetOpt(Get(response, "cpanelresult"), "result") else None
  }

  /** Whether the envelope reports at least one error: `errors` set, and
      counted, with a non-zero count. */
  predicate Reported(result: Json) {
    Get(result, "errors").Some? && (!Get(result, "errors").value.IsArray() || Get(result, "errors").value.Count() > 0)
  }

  /** The checks of `call` on cPanel's response. */
  function Unwrap(response: Json, codec: Codec): (r: Result<PhpArray>)
    ensures Envelope(response).None? ==> r == Err(InvalidResponse)
  {
    var inner := Envelope(response);
    if inner.None? then Err(InvalidResponse)
    else
      var result := inner.value;
      var errors := Get(result, "errors");
      if errors.Some? && !errors.value.IsArray() then Err(ErrorsNotCountable)
      else if errors.Some? && errors.value.Count() > 0 then Err(ErrorOf(Read(errors.value, "0")))
      else
        var data := Get(result, "data");
        if data.None? || LooselyNull(data.value, false) then Err(InvalidData)
        else if data.value.IsArray() then Err(DataNotText)
        else
          var decoded := DecodeBase64Json(codec, StringOf(data.value));
          if !decoded.IsArray() then Err(InvalidData) else Ok(decoded)
  }

  /** `call($module, $args, $function)`: cPanel's answer without the
      envelope is an invalid response, a reported error is raised, and an
      array returned is the decoded `data` of the envelope. */
  function Call(moduleName: string, args: PhpArray, uapi: Uapi, codec: Codec, functionName: string := DefaultFunction): (r: Result<PhpArray>)
    ensures var response := uapi(moduleName, functionName, Params(codec, args));
      && (Envelope(response).None? ==> r == Err(InvalidResponse))
      && (Envelope(response).Some? && Reported(Envelope(response).value) ==> r.Err?)
      && (r.Ok? ==>
            && Envelope(response).Some? && Get(Envelope(response).value, "data").Some?
            && r.value == DecodeBase64Json(codec, StringOf(Get(Envelope(response).value, "data").value)))
  {
    var response := uapi(moduleName, functionName, Params(codec, args));
    CallSucceeds(response, codec);
    Unwrap(response, codec)
  }

  /** A reported error is raised whatever the response holds as `data`. */
  lemma ErrorsBeforeData(response: Json, codec: Codec)
    requires Envelope(response).Some? && Reported(Envelope(response).value)
    ensures var errors := Get(Envelope(response).value, "errors").value;
      Unwrap(response, codec) == Err(if errors.IsArray() then ErrorOf(Read(errors, "0")) else ErrorsNotCountable)
  {
  }

  /** A first error that is text becomes the message of the exception. */
  lemma FirstErrorMessage(response: Json, codec: Codec, message: string, rest: seq<Json>)
    requires Envelope(response).Some? && Get(Envelope(response).value, "errors") == Some(JList([JString(message)] + rest))
    ensures Unwrap(response, codec) == Err(RuntimeException(message))
  {
    var errors := JList([JString(message)] + rest);
    assert Read(errors, "0") == JString(message) by {
      assert DigitsValue("0") == 0 by { assert "0"[..0] == []; }
    }
  }

  /** `call` succeeds exactly when the envelope is there, reports no error,
      and its `data` is text (not loosely null) that decodes to an array;
      it then returns that array. */
  lemma CallSucceeds(response: Json, codec: Codec)
    ensures Unwrap(response, codec).Ok? <==>
      && Envelope(response).Some?
      && !Reported(Envelope(response).value)
      && Get(Envelope(response).value, "data").Some?
      && !LooselyNull(Get(Envelope(response).value, "data").value, false)
      && !Get(Envelope(response).value, "data").value.IsArray()
      && DecodeBase64Json(codec, StringOf(Get(Envelope(response).value, "data").value)).IsArray()
    ensures Unwrap(response, codec).Ok? ==>
      Unwrap(response, codec).value == DecodeBase64Json(codec, StringOf(Get(Envelope(response).value, "data").value))
  {
  }

  /** An envelope without errors whose `data` is the base64 of the JSON of an
      array gives that array back, when the codecs invert each other on it. */
  lemma DataRoundTrip(response: Json, codec: Codec, x: PhpArray)
    requires Envelope(response).Some? && Get(Envelope(response).value, "errors").None?
    requires Get(Envelope(response).value, "data") == Some(JString(EncodeBase64Json(codec, x)))
    requires EncodeBase64Json(codec, x) != ""
    requires codec.base64Decode(EncodeBase64Json(codec, x)) == Some(codec.jsonEncode(x))
    requires codec.jsonDecode(codec.jsonEncode(x)) == x
    ensures Unwrap(response, codec) == Ok(x)
  {
  }

  /** The text `call` sends as `params`, put after a whitelisted command on
      an admin binary's input line, is parsed back to its arguments, when
      they are not loosely null and the codecs invert each other on them. */
  lemma ParamsParseBack(command: string, args: PhpArray, callable: seq<string>, codec: Codec)
    requires command in callable && command != "" && ' ' !in command && !IsTrimChar(command[0])
    requires var p := EncodeBase64Json(codec, args); p != "" && !IsTrimChar(p[|p| - 1])
    requires codec.base64Decode(EncodeBase64Json(codec, args)) == Some(codec.jsonEncode(args))
    requires codec.jsonDecode(codec.jsonEncode(args)) == args
    requires !LooselyNull(args, true)
    ensures var params := Get(Params(codec, args), "params").value.s;
      AdminBins.InputRequest(Some(command + " " + params), callable, codec) == Ok(AdminBins.Request(command, args))
  {
    AdminBins.RequestRoundTrip(command, args, callable, codec);
  }

  /** The default arguments of `call`, an empty array, encode to a value
      that an admin binary's input check takes for null. */
  lemma EmptyArgumentsRejected(command: string, callable: seq<string>, codec: Codec)
    requires command in callable && command != "" && ' ' !in command && !IsTrimChar(command[0])
    requires var p := EncodeBase64Json(codec, JList([])); p != "" && !IsTrimChar(p[|p| - 1])
    requires codec.base64Decode(EncodeBase64Json(codec, JList([]))) == Some(codec.jsonEncode(JList([])))
    requires codec.jsonDecode(codec.jsonEncode(JList([]))) == JList([])
    ensures var params := Get(Params(codec, JList([])), "params").value.s;
      AdminBins.InputRequest(Some(command + " " + params), callable, codec) == Err(AdminBins.UndecodableData)
  {
    var p := EncodeBase64Json(codec, JList([]));
    var line := command + " " + p;
    assert line[0] == command[0] && line[|line| - 1] == p[|p| - 1];
    TrimUnchanged(line);
    AdminBins.InputRequestOfLine(Some(line), callable, codec, command, p);
  }
}
