/** `AdminBin`: the privileged side of a cPanel admin binary. It reads one
    request line, `<command> <base64 of JSON>`, checks the command against a
    whitelist, takes the calling user's uid from the second program
    argument, and answers with a `{status, error, data}` envelope that
    `fail`, `success` and the installed error and exception handlers
    overwrite before it is printed as base64 of JSON. */
module AdminBins {
  import opened Failures
  import opened JsonValues
  import opened Externals
  import opened PhpStrings

  /** The default message of `fail`. */
  const DefaultFailure: string := "Failed executing AdminBin command"

  const EmptyInput: Exception := RuntimeException("Failed parsing AdminBin input from stream")
  const NoSeparator: Exception := RuntimeException("Failed exploding AdminBin input")
  const UndecodableData: Exception := RuntimeException("Failed parsing AdminBin input")
  const InvalidUid: Exception := RuntimeException("Invalid AdminBin uid")
  const UnknownUid: Exception := RuntimeException("Failed parsing AdminBin uid")

  function InvalidCommand(command: string): Exception {
    RuntimeException("Invalid AdminBin command provided: " + command)
  }

  /** The lowest uid an admin binary serves. */
  const MinUid: int := 1000

  /** The envelope of a new `AdminBin`. */
  const InitialResult: seq<(string, Json)> := [("status", JBool(true)), ("error", JNull), ("data", JNull)]

  // ---------------------------------------------------------------------------
  // parseInputData

  /** A parsed request: the whitelisted command and its decoded data (JSON
      objects decoded as `stdClass` objects). */
  datatype Request = Request(command: string, data: Json)

  /** The trimmed request text; a read that failed (`false`) trims to "". */
  function InputLine(contents: Option<string>): string {
    Trim(if contents.Some? then contents.value else "")
  }

  /** `parseInputData` on the contents read from the stream. */
  function InputRequest(contents: Option<string>, callable: seq<string>, codec: Codec): (r: Result<Request>)
    ensures r.Ok? ==> r.value.command in callable && r.value.command != "" && ' ' !in r.value.command
    ensures r.Ok? ==> !LooselyNull(r.value.data, true)
  {
    var line := InputLine(contents);
    if line == "" || line == "0" then Err(EmptyInput)
    else
      var parts := ExplodeOnce(line, ' ');
      if |parts| != 2 then Err(NoSeparator)
      else if parts[0] !in callable then Err(InvalidCommand(parts[0]))
      else
        assert parts[0] != "" by {
          assert line[0] != ' ';
        }
        var data := DecodeBase64Json(codec, parts[1]);
        if LooselyNull(data, true) then Err(UndecodableData)
        else Ok(Request(parts[0], data))
  }

  /** Input that trims to nothing (or to "0") and input without a space are
      rejected whatever the whitelist, with their own messages. */
  lemma InputErrors(contents: Option<string>, callable: seq<string>, codec: Codec)
    ensures var line := InputLine(contents);
      && (line == "" || line == "0" ==> InputRequest(contents, callable, codec) == Err(EmptyInput))
      && (line != "" && line != "0" && ' ' !in line ==> InputRequest(contents, callable, codec) == Err(NoSeparator))
  {
  }

  /** A line with a space is split at its first space: the text before it must
      be a whitelisted command, the rest must decode to a value that is not
      loosely null, and the request is then that command and that value. */
  lemma InputRequestOfLine(contents: Option<string>, callable: seq<string>, codec: Codec, command: string, payload: string)
    requires InputLine(contents) == command + " " + payload && ' ' !in command
    ensures var data := DecodeBase64Json(codec, payload);
      InputRequest(contents, callable, codec) ==
        if command !in callable then Err(InvalidCommand(command))
        else if LooselyNull(data, true) then Err(UndecodableData)
        else Ok(Request(command, data))
  {
    ExplodeAtFirst(command, ' ', payload);
    assert InputLine(contents)[|command|] == ' ';
  }

  /** A whitelisted command followed by a space and the base64 of the JSON of
      `d` is parsed back to that command and `d`, when the codecs invert each
      other on `d` and the encoded text ends in a base64 character. */
  lemma RequestRoundTrip(command: string, d: Json, callable: seq<string>, codec: Codec)
    requires command in callable && command != "" && ' ' !in command && !IsTrimChar(command[0])
    requires var p := EncodeBase64Json(codec, d); p != "" && !IsTrimChar(p[|p| - 1])
    requires codec.base64Decode(EncodeBase64Json(codec, d)) == Some(codec.jsonEncode(d))
    requires codec.jsonDecode(codec.jsonEncode(d)) == d
    requires !LooselyNull(d, true)
    ensures InputRequest(Some(command + " " + EncodeBase64Json(codec, d)), callable, codec) == Ok(Request(command, d))
  {
    var p := EncodeBase64Json(codec, d);
    var line := command + " " + p;
    assert line[0] == command[0] && line[|line| - 1] == p[|p| - 1];
    TrimUnchanged(line);
    InputRequestOfLine(Some(line), callable, codec, command, p);
  }

  // ---------------------------------------------------------------------------
  // parseUserData

  /** What `posix_getpwuid` reports of an account: `name` (None when unset),
      `dir` and `gid`. */
  datatype Passwd = Passwd(name: Option<string>, dir: string, gid: int)

  /** The account database: `posix_getpwuid`, None for its `false`. */
  type PasswdLookup = int -> Option<Passwd>

  /** The user data `parseUserData` returns. */
  datatype UserData = UserData(uid: int, gid: int, username: string, home: string)

  /** `(int) $_SERVER['argv'][1]` when the argument list has two entries or
      more; -1 otherwise (None stands for an unset or non-array `argv`). */
  function Uid(argv: Option<seq<string>>): (u: int)
    ensures argv.None? || |argv.value| <= 1 ==> u == -1
    ensures argv.Some? && |argv.value| > 1 && (forall i :: 0 <= i < |argv.value[1]| ==> !IsDigit(argv.value[1][i])) ==> u == 0
  {
    if argv.Some? && |argv.value| > 1 then IntCastSign(argv.value[1]); IntCast(argv.value[1]) else -1
  }

  /** `parseUserData`: the uid must be at least 1000 and known to the account
      database; the account's name, home and group are copied when the entry
      has a name, otherwise they keep their defaults. */
  function UserRecord(argv: Option<seq<string>>, passwd: PasswdLookup): (r: Result<UserData>)
    ensures r.Ok? ==> r.value.uid == Uid(argv) && r.value.uid >= MinUid && passwd(r.value.uid).Some?
  {
    var uid := Uid(argv);
    if uid < MinUid then Err(InvalidUid)
    else match passwd(uid)
      case None => Err(UnknownUid)
      case Some(info) =>
        if info.name.Some? then Ok(UserData(uid, info.gid, info.name.value, info.dir))
        else Ok(UserData(uid, -1, "", ""))
  }

  /** The uid given as the decimal text of an integer is that integer. */
  lemma UidOfArgument(argv: seq<string>, uid: int)
    requires |argv| > 1 && argv[1] == IntToString(uid)
    ensures Uid(Some(argv)) == uid
  {
    IntCastOfIntToString(uid);
  }

  /** A uid written with an exponent is cast as PHP casts it: `argv[1] = "1e3"`
      is uid 1000, which passes the uid check. */
  lemma ExponentUidAccepted(program: string, passwd: PasswdLookup, name: string, dir: string, gid: int)
    requires passwd(1000) == Some(Passwd(Some(name), dir, gid))
    ensures UserRecord(Some([program, "1e3"]), passwd) == Ok(UserData(1000, gid, name, dir))
  {
    IntCastExponentExample();
    assert Uid(Some([program, "1e3"])) == 1000;
  }

  /** Without a uid argument the request is refused as an invalid uid. */
  lemma MissingUidRejected(argv: Option<seq<string>>, passwd: PasswdLookup)
    requires argv.None? || |argv.value| <= 1
    ensures UserRecord(argv, passwd) == Err(InvalidUid)
  {
  }

  /** `parseUserData` succeeds exactly for a uid of at least 1000 that the
      account database knows, and then reports that account; a uid below
      1000 is refused before the database is asked. */
  lemma UserRecordCases(argv: Option<seq<string>>, passwd: PasswdLookup)
    ensures UserRecord(argv, passwd).Ok? <==> Uid(argv) >= MinUid && passwd(Uid(argv)).Some?
    ensures Uid(argv) < MinUid ==> UserRecord(argv, passwd) == Err(InvalidUid)
    ensures Uid(argv) >= MinUid && passwd(Uid(argv)).None? ==> UserRecord(argv, passwd) == Err(UnknownUid)
    ensures Uid(argv) >= MinUid && passwd(Uid(argv)).Some? && passwd(Uid(argv)).value.name.Some? ==>
      var info := passwd(Uid(argv)).value;
      UserRecord(argv, passwd) == Ok(UserData(Uid(argv), info.gid, info.name.value, info.dir))
  {
  }

  /** The user of `argv = [program, text of uid]` with a named account entry
      gets that account's uid, group, name and home. */
  lemma UserParseExample(program: string, uid: int, passwd: PasswdLookup, name: string, dir: string, gid: int)
    requires uid >= MinUid && passwd(uid) == Some(Passwd(Some(name), dir, gid))
    ensures UserRecord(Some([program, IntToString(uid)]), passwd) == Ok(UserData(uid, gid, name, dir))
  {
    UidOfArgument([program, IntToString(uid)], uid);
  }

  // ---------------------------------------------------------------------------
  // parseInput

  /** `parseInput`: the user data, then the request; it succeeds exactly
      when both do, with both. */
  function Input(argv: Option<seq<string>>, passwd: PasswdLookup, contents: Option<string>, callable: seq<string>, codec: Codec)
    : (r: Result<(UserData, Request)>)
    ensures r.Ok? <==> UserRecord(argv, passwd).Ok? && InputRequest(contents, callable, codec).Ok?
    ensures r.Ok? ==> r.value == (UserRecord(argv, passwd).value, InputRequest(contents, callable, codec).value)
  {
    var user :- UserRecord(argv, passwd);
    var request :- InputRequest(contents, callable, codec);
    Ok((user, request))
  }

  /** A bad uid is reported even when the request is bad as well; the input
      is accepted exactly when both parts are. */
  lemma InputOrder(argv: Option<seq<string>>, passwd: PasswdLookup, contents: Option<string>, callable: seq<string>, codec: Codec)
    ensures UserRecord(argv, passwd).Err? ==> Input(argv, passwd, contents, callable, codec) == Err(UserRecord(argv, passwd).error)
    ensures UserRecord(argv, passwd).Ok? && InputRequest(contents, callable, codec).Err? ==>
      Input(argv, passwd, contents, callable, codec) == Err(InputRequest(contents, callable, codec).error)
    ensures Input(argv, passwd, contents, callable, codec).Ok? <==>
      UserRecord(argv, passwd).Ok? && InputRequest(contents, callable, codec).Ok?
  {
  }

  // ---------------------------------------------------------------------------
  // The result envelope

  /** `status`, `error` and `data` set in that order, each overwritten in
      place when present and appended otherwise; afterwards each of the
      three keys holds the value set. */
  function Envelope(result: seq<(string, Json)>, status: Json, error: Json, data: Json): (e: seq<(string, Json)>)
    ensures Lookup(e, "status") == Some(status) && Lookup(e, "error") == Some(error) && Lookup(e, "data") == Some(data)
  {
    var a := Put(result, "status", status);
    var b := Put(a, "error", error);
    PutOthers(a, "error", error, "status");
    PutOthers(b, "data", data, "status");
    PutOthers(b, "data", data, "error");
    Put(b, "data", data)
  }

  /** An envelope holds the three values set and keeps every other key. */
  lemma EnvelopeFields(result: seq<(string, Json)>, status: Json, error: Json, data: Json)
    ensures var e := Envelope(result, status, error, data);
      Lookup(e, "status") == Some(status) && Lookup(e, "error") == Some(error) && Lookup(e, "data") == Some(data)
    ensures forall k :: k != "status" && k != "error" && k != "data" ==>
      Lookup(Envelope(result, status, error, data), k) == Lookup(result, k)
  {
    var a := Put(result, "status", status);
    var b := Put(a, "error", error);
    PutOthers(a, "error", error, "status");
    PutOthers(b, "data", data, "status");
    PutOthers(b, "data", data, "error");
    forall k | k != "status" && k != "error" && k != "data"
      ensures Lookup(Envelope(result, status, error, data), k) == Lookup(result, k)
    {
      PutOthers(result, "status", status, k);
      PutOthers(a, "error", error, k);
      PutOthers(b, "data", data, k);
    }
  }

  /** The envelope of `fail($msg)` and of the handlers: status false, the
      message as error, no data. */
  function Failed(result: seq<(string, Json)>, message: string): (e: seq<(string, Json)>)
    ensures Lookup(e, "status") == Some(JBool(false)) && Lookup(e, "error") == Some(JString(message))
    ensures Lookup(e, "data") == Some(JNull)
  {
    Envelope(result, JBool(false), JString(message), JNull)
  }

  /** The envelope of `success($data)`: status true, no error, the data. */
  function Succeeded(result: seq<(string, Json)>, data: Json): (e: seq<(string, Json)>)
    ensures Lookup(e, "status") == Some(JBool(true)) && Lookup(e, "error") == Some(JNull)
    ensures Lookup(e, "data") == Some(data)
  {
    Envelope(result, JBool(true), JNull, data)
  }

  /** A handler's error text: the message, followed in debug mode by where
      the error was raised. */
  function Located(message: string, debug: bool, file: string, line: int): (r: string)
    ensures |r| >= |message| && r[..|message|] == message
    ensures !debug ==> r == message
  {
    if debug then message + " in " + file + " on line " + IntToString(line) else message
  }

  /** What `output` prints: base64 of the JSON of the envelope, which reads
      back as the envelope wherever the codecs invert each other on it. */
  function Encoded(codec: Codec, result: seq<(string, Json)>): (text: string)
    ensures (codec.base64Decode(codec.base64Encode(codec.jsonEncode(JObject(result)))) == Some(codec.jsonEncode(JObject(result)))
             && codec.jsonDecode(codec.jsonEncode(JObject(result))) == JObject(result))
      ==> DecodeBase64Json(codec, text) == JObject(result)
  {
    EncodeBase64Json(codec, JObject(result))
  }

  /** The writes of a handler: `status`, then `error`, then in debug mode
      the location appended to the `error` just stored, then `data`. */
  function HandlerSteps(result: seq<(string, Json)>, message: string, debug: bool, file: string, line: int): seq<(string, Json)> {
    var a := Put(Put(result, "status", JBool(false)), "error", JString(message));
    var b := if debug then Put(a, "error", JString(StringOf(Read(JObject(a), "error")) + " in " + file + " on line " + IntToString(line))) else a;
    Put(b, "data", JNull)
  }

  /** A handler's writes leave the envelope of a failure with the located
      message: the appended location lands on the message just stored. */
  lemma HandlerEnvelope(result: seq<(string, Json)>, message: string, debug: bool, file: string, line: int)
    ensures HandlerSteps(result, message, debug, file, line) == Failed(result, Located(message, debug, file, line))
  {
    if debug {
      var a := Put(Put(result, "status", JBool(false)), "error", JString(message));
      assert Read(JObject(a), "error") == JString(message);
      PutTwice(Put(result, "status", JBool(false)), "error", JString(message), JString(Located(message, debug, file, line)));
    }
  }

  /** Setting the envelope keeps the keys of an array distinct. */
  lemma EnvelopeDistinct(result: seq<(string, Json)>, status: Json, error: Json, data: Json)
    requires DistinctKeys(result)
    ensures DistinctKeys(Envelope(result, status, error, data))
  {
    PutDistinct(result, "status", status);
    PutDistinct(Put(result, "status", status), "error", error);
    PutDistinct(Put(Put(result, "status", status), "error", error), "data", data);
  }

  /** The keys of an envelope depend on the keys of the array it was set on,
      not on the values set. */
  lemma EnvelopeKeys(result: seq<(string, Json)>, s1: Json, e1: Json, d1: Json, s2: Json, e2: Json, d2: Json)
    ensures Keys(Envelope(result, s1, e1, d1)) == Keys(Envelope(result, s2, e2, d2))
  {
    var a1 := Put(result, "status", s1);
    var a2 := Put(result, "status", s2);
    PutKeysOf(result, "status", s1);
    PutKeysOf(result, "status", s2);
    var b1 := Put(a1, "error", e1);
    var b2 := Put(a2, "error", e2);
    PutKeysOf(a1, "error", e1);
    PutKeysOf(a2, "error", e2);
    PutKeysOf(b1, "data", d1);
    PutKeysOf(b2, "data", d2);
  }

  /** Setting an envelope on an array that holds all three keys keeps its keys. */
  lemma EnvelopeOnEnvelope(result: seq<(string, Json)>, status: Json, error: Json, data: Json)
    requires Lookup(result, "status").Some? && Lookup(result, "error").Some? && Lookup(result, "data").Some?
    ensures Keys(Envelope(result, status, error, data)) == Keys(result)
  {
    var a := Put(result, "status", status);
    PutKeepsKeys(result, "status", status);
    var b := Put(a, "error", error);
    PutKeepsKeys(a, "error", error);
    PutKeepsKeys(b, "data", data);
  }

  /** Of two envelopes set one after the other, the last one is all that
      remains: a later `fail`, `success` or handler call erases every trace
      of an earlier one. */
  lemma LastEnvelopeWins(result: seq<(string, Json)>, s1: Json, e1: Json, d1: Json, s2: Json, e2: Json, d2: Json)
    requires DistinctKeys(result)
    ensures Envelope(Envelope(result, s1, e1, d1), s2, e2, d2) == Envelope(result, s2, e2, d2)
  {
    var first := Envelope(result, s1, e1, d1);
    EnvelopeDistinct(result, s1, e1, d1);
    EnvelopeDistinct(first, s2, e2, d2);
    EnvelopeFields(result, s1, e1, d1);
    EnvelopeOnEnvelope(first, s2, e2, d2);
    EnvelopeKeys(result, s1, e1, d1, s2, e2, d2);
    SameLookups(result, s1, e1, d1, s2, e2, d2);
    SameArrays(Envelope(first, s2, e2, d2), Envelope(result, s2, e2, d2));
  }

  lemma SameLookups(result: seq<(string, Json)>, s1: Json, e1: Json, d1: Json, s2: Json, e2: Json, d2: Json)
    ensures forall k :: Lookup(Envelope(Envelope(result, s1, e1, d1), s2, e2, d2), k) == Lookup(Envelope(result, s2, e2, d2), k)
  {
    var first := Envelope(result, s1, e1, d1);
    EnvelopeFields(result, s1, e1, d1);
    EnvelopeFields(first, s2, e2, d2);
    EnvelopeFields(result, s2, e2, d2);
  }

  /** On an envelope that lists `status`, `error` and `data` in that order
      and nothing else, as a new `AdminBin` does, the three values are
      replaced in place. */
  lemma EnvelopeInPlace(result: seq<(string, Json)>, s0: Json, e0: Json, d0: Json, status: Json, error: Json, data: Json)
    requires result == [("status", s0), ("error", e0), ("data", d0)]
    ensures Envelope(result, status, error, data) == [("status", status), ("error", error), ("data", data)]
  {
    PutFirst(("status", s0), ("error", e0), ("data", d0), status);
    PutSecond(("status", status), ("error", e0), ("data", d0), error);
    PutThird(("status", status), ("error", error), ("data", d0), data);
  }

  lemma PutFirst(m0: (string, Json), m1: (string, Json), m2: (string, Json), v: Json)
    ensures Put([m0, m1, m2], m0.0, v) == [(m0.0, v), m1, m2]
  {
    assert [m0, m1, m2][1..] == [m1, m2];
  }

  lemma PutSecond(m0: (string, Json), m1: (string, Json), m2: (string, Json), v: Json)
    requires m0.0 != m1.0
    ensures Put([m0, m1, m2], m1.0, v) == [m0, (m1.0, v), m2]
  {
    assert [m0, m1, m2][1..] == [m1, m2];
    PutFirst(m1, m2, m2, v);
    assert [m1, m2][1..] == [m2];
  }

  lemma PutThird(m0: (string, Json), m1: (string, Json), m2: (string, Json), v: Json)
    requires m0.0 != m2.0 && m1.0 != m2.0
    ensures Put([m0, m1, m2], m2.0, v) == [m0, m1, (m2.0, v)]
  {
    assert [m0, m1, m2][1..] == [m1, m2];
    PutLast(m1, m2, v);
  }

  lemma PutLast(m1: (string, Json), m2: (string, Json), v: Json)
    requires m1.0 != m2.0
    ensures Put([m1, m2], m2.0, v) == [m1, (m2.0, v)]
  {
    assert [m1, m2][1..] == [m2];
  }

  /** `fail` on a new `AdminBin` answers `{status: false, error: msg, data: null}`. */
  lemma FreshFailure(message: string)
    ensures Failed(InitialResult, message) == [("status", JBool(false)), ("error", JString(message)), ("data", JNull)]
  {
    EnvelopeInPlace(InitialResult, JBool(true), JNull, JNull, JBool(false), JString(message), JNull);
  }

  /** `success` on a new `AdminBin` answers `{status: true, error: null, data: data}`. */
  lemma FreshSuccess(data: Json)
    ensures Succeeded(InitialResult, data) == [("status", JBool(true)), ("error", JNull), ("data", data)]
  {
    EnvelopeInPlace(InitialResult, JBool(true), JNull, JNull, JBool(true), JNull, data);
  }

  // ---------------------------------------------------------------------------
  // The admin binary

  class AdminBin {
    var callable: seq<string>
    var debug: bool
    var result: seq<(string, Json)>

    /** The envelope is a PHP array: no key occurs twice. */
    ghost predicate Valid()
      reads this
    {
      DistinctKeys(result)
    }

    /** A new admin binary: no command is callable, debug is off and the
        envelope reports success with no data. */
    constructor()
      ensures callable == [] && !debug && result == InitialResult && Valid()
    {
      callable := [];
      debug := false;
      result := InitialResult;
    }

    /** `output`: the text printed for the current envelope. */
    method Output(codec: Codec) returns (text: string)
      ensures text == Encoded(codec, result)
    {
      text := codec.base64Encode(codec.jsonEncode(JObject(result)));
    }

    /** `errorHandler`: fail with the error's text, located in debug mode;
        the process then exits with status 1. */
    method ErrorHandler(codec: Codec, errno: int, errstr: string, errfile: string, errline: int)
      returns (text: string, exitCode: int)
      requires Valid()
      modifies this
      ensures Valid()
      ensures result == Failed(old(result), Located(errstr, old(debug), errfile, errline))
      ensures callable == old(callable) && debug == old(debug)
      ensures text == Encoded(codec, result) && exitCode == 1
    {
      ghost var before := result;
      HandlerEnvelope(before, errstr, debug, errfile, errline);
      EnvelopeDistinct(before, JBool(false), JString(Located(errstr, debug, errfile, errline)), JNull);
      var r := Put(Put(result, "status", JBool(false)), "error", JString(errstr));
      if debug {
        r := Put(r, "error", JString(StringOf(Read(JObject(r), "error")) + " in " + errfile + " on line " + IntToString(errline)));
      }
      assert Put(r, "data", JNull) == HandlerSteps(before, errstr, debug, errfile, errline);
      result := Put(r, "data", JNull);
      text := Output(codec);
      exitCode := 1;
    }

    /** `exceptionHandler(\Exception $e)`: an `\Exception` fails the envelope
        with its message, located in debug mode, the envelope is printed and
        the process exits with status 1. An engine `Error` (a `TypeError`, or
        the `Error` of an uninitialised property) is refused by the handler's
        parameter type: PHP then dies of an uncaught `TypeError` with exit
        status 255, and no envelope is written or printed. */
    method ExceptionHandler(codec: Codec, e: Exception, file: string, line: int)
      returns (text: Option<string>, exitCode: int)
      requires Valid()
      modifies this
      ensures Valid()
      ensures e.IsException() ==>
        && result == Failed(old(result), Located(e.message, old(debug), file, line))
        && text == Some(Encoded(codec, result)) && exitCode == 1
      ensures !e.IsException() ==> result == old(result) && text.None? && exitCode == 255
      ensures callable == old(callable) && debug == old(debug)
    {
      if !e.IsException() {
        return None, 255;
      }
      var message := e.message;
      ghost var before := result;
      HandlerEnvelope(before, message, debug, file, line);
      EnvelopeDistinct(before, JBool(false), JString(Located(message, debug, file, line)), JNull);
      var r := Put(Put(result, "status", JBool(false)), "error", JString(message));
      if debug {
        r := Put(r, "error", JString(StringOf(Read(JObject(r), "error")) + " in " + file + " on line " + IntToString(line)));
      }
      assert Put(r, "data", JNull) == HandlerSteps(before, message, debug, file, line);
      result := Put(r, "data", JNull);
      var printed := Output(codec);
      text := Some(printed);
      exitCode := 1;
    }

    /** `fail($msg)`: the process then exits with status 1. */
    method Fail(codec: Codec, message: string := DefaultFailure) returns (text: string, exitCode: int)
      requires Valid()
      modifies this
      ensures Valid()
      ensures result == Failed(old(result), message)
      ensures callable == old(callable) && debug == old(debug)
      ensures text == Encoded(codec, result) && exitCode == 1
    {
      EnvelopeDistinct(result, JBool(false), JString(message), JNull);
      result := Failed(result, message);
      text := Output(codec);
      exitCode := 1;
    }

    /** `success($data)`: the process then exits with status 0. */
    method Success(codec: Codec, data: Json := JNull) returns (text: string, exitCode: int)
      requires Valid()
      modifies this
      ensures Valid()
      ensures result == Succeeded(old(result), data)
      ensures callable == old(callable) && debug == old(debug)
      ensures text == Encoded(codec, result) && exitCode == 0
    {
      EnvelopeDistinct(result, JBool(true), JNull, data);
      result := Succeeded(result, data);
      text := Output(codec);
      exitCode := 0;
    }

    /** `setCallable`: the whitelist is replaced. */
    method SetCallable(commands: seq<string>)
      modifies this
      ensures callable == commands && debug == old(debug) && result == old(result)
    {
      callable := commands;
    }

    /** `addCallable`: one command is appended to the whitelist. */
    method AddCallable(command: string)
      modifies this
      ensures callable == old(callable) + [command] && debug == old(debug) && result == old(result)
    {
      callable := callable + [command];
    }

    method SetDebug(on: bool)
      modifies this
      ensures debug == on && callable == old(callable) && result == old(result)
    {
      debug := on;
    }

    /** `setResult`: the envelope is replaced by a caller's array. */
    method SetResult(members: seq<(string, Json)>)
      requires DistinctKeys(members)
      modifies this
      ensures Valid()
      ensures result == members && callable == old(callable) && debug == old(debug)
    {
      result := members;
    }

    /** `parseInputData`, on the contents read from the stream. */
    method ParseInputData(contents: Option<string>, codec: Codec) returns (r: Result<Request>)
      ensures r == InputRequest(contents, callable, codec)
    {
      var request := Request("", JNull);
      var stdin := InputLine(contents);
      if stdin == "" || stdin == "0" {
        return Err(EmptyInput);
      }
      var parts := ExplodeOnce(stdin, ' ');
      if |parts| != 2 {
        return Err(NoSeparator);
      }
      request := request.(command := parts[0]);
      if request.command !in callable {
        return Err(InvalidCommand(request.command));
      }
      request := request.(data := DecodeBase64Json(codec, parts[1]));
      if LooselyNull(request.data, true) {
        return Err(UndecodableData);
      }
      return Ok(request);
    }

    /** `parseUserData`, on the program arguments and the account database. */
    method ParseUserData(argv: Option<seq<string>>, passwd: PasswdLookup) returns (r: Result<UserData>)
      ensures r == UserRecord(argv, passwd)
    {
      var data := UserData(-1, -1, "", "");
      if argv.Some? && |argv.value| > 1 {
        data := data.(uid := IntCast(argv.value[1]));
      }
      if data.uid < MinUid {
        return Err(InvalidUid);
      }
      var info := passwd(data.uid);
      if info.None? {
        return Err(UnknownUid);
      }
      if info.value.name.Some? {
        data := data.(username := info.value.name.value, home := info.value.dir, gid := info.value.gid);
      }
      return Ok(data);
    }

    /** `parseInput`: the user data, then the request. */
    method ParseInput(argv: Option<seq<string>>, passwd: PasswdLookup, contents: Option<string>, codec: Codec)
      returns (r: Result<(UserData, Request)>)
      ensures r == Input(argv, passwd, contents, callable, codec)
    {
      var user := ParseUserData(argv, passwd);
      if user.Err? {
        return Err(user.error);
      }
      var request := ParseInputData(contents, codec);
      if request.Err? {
        return Err(request.error);
      }
      return Ok((user.value, request.value));
    }
  }
}
