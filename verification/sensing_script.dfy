/**
 * The command-line script that exercises the vital-sensing service end to end: it reads its
 * options, shrinks an oversized clip, logs in, uploads the clip, optionally saves the
 * readings, and asks for the user's history. Each step decides success from the reply's
 * status and body; those decisions, and the values each step derives, are modelled here.
 * Replies, the file system and the compressor's run are given.
 */
module SensingScript {
  import opened Wrappers
  import opened Strings
  import opened Json
  import opened Http
  import JsNumber
  import OnlineDoctor

  // ---------------------------------------------------------------------------------------
  // Options and messages
  // ---------------------------------------------------------------------------------------

  /** `args.indexOf(name)`. */
  function ArgIndex(args: seq<string>, name: string): (i: int)
    ensures -1 <= i < |args|
    ensures i == -1 <==> name !in args
    ensures i >= 0 ==> args[i] == name && name !in args[..i]
  {
    if |args| == 0 then -1
    else if args[0] == name then 0
    else
      var k := ArgIndex(args[1..], name);
      assert args[0] != name;
      if k == -1 then -1
      else
        assert args[..k + 1] == [args[0]] + args[1..][..k];
        k + 1
  }

  /** `getArg`: the word after the first occurrence of the flag, if there is one. */
  function GetArg(args: seq<string>, name: string): (r: Option<string>)
    ensures name !in args ==> r.None?
    ensures forall i :: 0 <= i < |args| && args[i] == name && name !in args[..i] ==>
      r == (if i + 1 < |args| then Some(args[i + 1]) else None)
  {
    var i := ArgIndex(args, name);
    assert forall j :: 0 <= j < |args| && args[j] == name && name !in args[..j] ==> j == i by {
      forall j | 0 <= j < |args| && args[j] == name && name !in args[..j]
        ensures j == i
      {
        if 0 <= i < j {
          assert false;
        } else if j < i {
          assert false;
        }
      }
    }
    if i == -1 || i + 1 == |args| then None else Some(args[i + 1])
  }

  /** The flag's value comes back from a command line that ends with it. */
  lemma GetArgAppended(args: seq<string>, name: string, value: string)
    requires name !in args
    ensures GetArg(args + [name, value], name) == Some(value)
  {
    var all := args + [name, value];
    assert all[|args|] == name && all[..|args|] == args;
  }

  /** `getMessage`: nothing for a missing or empty message, a list joined with " | ", a text as it is. */
  function GetMessage(message: Js): (r: string)
    ensures !Truthy(message) ==> r == ""
    ensures message.JStr? ==> r == message.s
  {
    if !Truthy(message) then ""
    else if message.JArr? then ArrayJoin(message, Bar)
    else ToStr(message)
  }

  /**
   * The script and the server library write a service message the same way whenever there is
   * one: a list of messages joined with " | ", or the text itself.
   */
  lemma GetMessageAgreesWithLibrary(body: Js)
    requires var m := Get(body, "message"); m.JArr? || (m.JStr? && m.s != "")
    ensures GetMessage(Get(body, "message")) == OnlineDoctor.ErrorText(body)
  {
  }

  /** A list of messages without bars is recovered by splitting the joined text at " | ". */
  lemma GetMessageSplits(parts: seq<string>)
    requires |parts| >= 1
    requires forall i :: 0 <= i < |parts| ==> !Contains(parts[i], '|')
    ensures Split(GetMessage(StrArray(parts)), Bar) == parts
  {
    StrArrayTexts(parts);
    SplitJoinBar(parts);
  }

  // ---------------------------------------------------------------------------------------
  // Replies
  // ---------------------------------------------------------------------------------------

  /** A reply as the script keeps it: the status and the body, JSON or text. */
  datatype Parsed = Parsed(status: int, body: Js)

  /** `parseResponse`: an empty body is the empty text, a body that is not JSON is its text, anything else is parsed. */
  function ParseResponse(reply: Reply): (r: Result<Parsed>)
    ensures r.Err? <==> reply.NetworkError?
    ensures r.Ok? ==> r.value.status == reply.status
    ensures reply.Reply? && reply.text == "" ==> r.value.body == JStr("")
    ensures reply.Reply? && reply.text != "" && reply.parsed.None? ==> r.value.body == JStr(reply.text)
    ensures reply.Reply? && reply.text != "" && reply.parsed.Some? ==> r.value.body == reply.parsed.value
  {
    match reply
    case NetworkError(m) => Err(m)
    case Reply(status, text, parsed) =>
      if text == "" then Ok(Parsed(status, JStr("")))
      else match parsed
        case None => Ok(Parsed(status, JStr(text)))
        case Some(v) => Ok(Parsed(status, v))
  }

  /** A 2xx status. */
  predicate HttpOk(status: int) {
    200 <= status < 300
  }

  /**
   * The failure test of `ensureApiSuccess`: a text body fails on a status outside 200-299;
   * any other body fails on such a status too, on `error: true`, and on a numeric `code` of
   * 400 or more.
   */
  predicate ApiFailed(p: Parsed) {
    if p.body.JStr? then !HttpOk(p.status)
    else
      var code := OptGet(p.body, "code");
      || !HttpOk(p.status)
      || OptGet(p.body, "error") == JBool(true)
      || (code.JNum? && code.n >= 400.0)
  }

  /**
   * `ensureApiSuccess`: `None` when the step succeeded, else the thrown message, which names
   * the step and quotes the body (`stringify` is `JSON.stringify`).
   */
  function EnsureApiSuccess(p: Parsed, endpoint: string, stringify: Js -> string): (r: Option<string>)
    ensures r.Some? <==> ApiFailed(p)
    ensures r.Some? ==> |r.value| >= |endpoint| && r.value[..|endpoint|] == endpoint
  {
    if !ApiFailed(p) then None
    else if p.body.JStr? then
      Some(endpoint + " failed [" + ShowInt(p.status) + "]: " + p.body.s)
    else
      Some(endpoint + " failed [http:" + ShowInt(p.status) + " code:"
           + ToStr(Coalesce(OptGet(p.body, "code"), JStr("N/A"))) + "]: " + stringify(p.body))
  }

  /**
   * A reply that is empty or not JSON is judged by its status alone, and its text is what a
   * failure quotes after the step's name and status.
   */
  lemma TextReplyJudgedByStatus(reply: Reply, endpoint: string, stringify: Js -> string)
    requires reply.Reply? && (reply.text == "" || reply.parsed.None?)
    ensures ParseResponse(reply).Ok?
    ensures EnsureApiSuccess(ParseResponse(reply).value, endpoint, stringify).Some? <==> !HttpOk(reply.status)
    ensures !HttpOk(reply.status) ==>
      EnsureApiSuccess(ParseResponse(reply).value, endpoint, stringify)
        == Some(endpoint + " failed [" + ShowInt(reply.status) + "]: " + reply.text)
  {
  }

  /**
   * The script is stricter than the server library: whatever the library rejects, the script
   * rejects too, and on a 2xx status the two agree exactly.
   */
  lemma ScriptAtLeastAsStrictAsLibrary(status: int, body: Js)
    requires !Nullish(body) && !body.JStr?
    ensures OnlineDoctor.SignalFailed(status, body) ==> ApiFailed(Parsed(status, body))
    ensures HttpOk(status) ==> (OnlineDoctor.SignalFailed(status, body) <==> ApiFailed(Parsed(status, body)))
  {
  }

  /** A redirect status is where they part: the script rejects it, the library does not. */
  lemma RedirectSeparatesThem()
    ensures ApiFailed(Parsed(302, EmptyObject)) && !OnlineDoctor.SignalFailed(302, EmptyObject)
  {
  }

  // ---------------------------------------------------------------------------------------
  // Preparing the clip
  // ---------------------------------------------------------------------------------------

  /** The upload limit, 10 MiB. */
  const MaxUploadBytes: nat := 10 * 1024 * 1024

  /** The clip to upload, its size before and after, and whether it was re-encoded. */
  datatype Prepared = Prepared(uploadPath: string, originalSize: nat, uploadSize: nat, transformed: bool)

  /** The compressor's run: its exit code, its error output, and the size of the file it wrote. */
  datatype Compression = Compression(exitCode: int, stderr: string, outputSize: nat)

  /**
   * `prepareUploadVideo`: a clip within the limit is used as it is; a larger one is re-encoded
   * into `tempPath`, and the result is refused if the compressor fails or the output is still
   * over the limit.
   */
  function PrepareUpload(path: string, found: bool, size: nat, tempPath: string, run: Compression): (r: Result<Prepared>)
    ensures !found ==> r.Err?
    ensures found && size <= MaxUploadBytes ==> r == Ok(Prepared(path, size, size, false))
    ensures r.Ok? ==> r.value.uploadSize <= MaxUploadBytes && r.value.originalSize == size
    ensures r.Ok? ==> (r.value.transformed <==> size > MaxUploadBytes)
    ensures found && size > MaxUploadBytes ==>
      (r.Ok? <==> run.exitCode == 0 && run.outputSize <= MaxUploadBytes)
  {
    if !found then Err("Video file not found: " + path)
    else if size <= MaxUploadBytes then Ok(Prepared(path, size, size, false))
    else if run.exitCode != 0 then Err("ffmpeg failed while compressing video: " + run.stderr)
    else if run.outputSize > MaxUploadBytes then
      Err("Compressed video is still larger than 10MB ("
          + JsNumber.ToFixed2(run.outputSize as real / 1024.0 / 1024.0) + "MB). "
          + "Please provide a shorter or lower-resolution clip.")
    else Ok(Prepared(tempPath, size, run.outputSize, true))
  }

  // ---------------------------------------------------------------------------------------
  // Login
  // ---------------------------------------------------------------------------------------

  /** What a successful login gives: the token, the user id, and the body. */
  datatype LoginResult = LoginResult(accessToken: string, userId: string, raw: Js)

  /** `data.user_id ?? data.user?.user_id ?? data.user?.id`. */
  function UserIdCandidate(data: Js): Js {
    Coalesce(Coalesce(Get(data, "user_id"), OptGet(Get(data, "user"), "user_id")), OptGet(Get(data, "user"), "id"))
  }

  /** The user id of a login body: the text of the first id that is neither `undefined` nor `null`, or the empty text. */
  function UserIdOf(data: Js): (id: string)
    ensures Nullish(UserIdCandidate(data)) ==> id == ""
    ensures !Nullish(UserIdCandidate(data)) ==> id == ToStr(UserIdCandidate(data))
  {
    var candidate := UserIdCandidate(data);
    if !Nullish(candidate) then ToStr(candidate) else ""
  }

  /** The `data` of a login body, `{}` when it has none. */
  function LoginData(body: Js): (data: Js)
    ensures !Nullish(data)
  {
    Coalesce(OptGet(body, "data"), EmptyObject)
  }

  /**
   * What `login` makes of an accepted reply: the token is `data.access_token` as text and the
   * user id is the first id present; a missing token or user id is refused.
   */
  function LoginOutcome(body: Js, stringify: Js -> string): (r: Result<LoginResult>)
    ensures r.Ok? ==> r.value.accessToken != "" && r.value.userId != "" && r.value.raw == body
    ensures r.Ok? ==> r.value.accessToken == TokenText(body) && r.value.userId == UserIdOf(LoginData(body))
    ensures r.Ok? ==> !Nullish(UserIdCandidate(LoginData(body)))
  {
    LoginChecks(body, UserIdOf(LoginData(body)), stringify)
  }

  /** `String(data.access_token ?? "")`: the token as text, empty when there is none. */
  function TokenText(body: Js): (t: string)
    ensures Nullish(Get(LoginData(body), "access_token")) ==> t == ""
    ensures Get(LoginData(body), "access_token").JStr? ==> t == Get(LoginData(body), "access_token").s
    ensures !Nullish(Get(LoginData(body), "access_token")) ==> t == ToStr(Get(LoginData(body), "access_token"))
  {
    ToStr(Coalesce(Get(LoginData(body), "access_token"), JStr("")))
  }

  /** The checks `login` applies once the token and the user id are derived. */
  function LoginChecks(body: Js, userId: string, stringify: Js -> string): (r: Result<LoginResult>)
    ensures r.Ok? <==> TokenText(body) != "" && userId != ""
    ensures r.Ok? ==> r.value == LoginResult(TokenText(body), userId, body)
    ensures TokenText(body) == "" ==> r == Err("Login response missing access_token: " + stringify(body))
    ensures TokenText(body) != "" && userId == "" ==> r == Err("Login response missing user_id: " + stringify(body))
  {
    var accessToken := TokenText(body);
    if accessToken == "" then Err("Login response missing access_token: " + stringify(body))
    else if userId == "" then Err("Login response missing user_id: " + stringify(body))
    else Ok(LoginResult(accessToken, userId, body))
  }

  /**
   * The user id as written: every candidate but `undefined` is turned into text, so when the
   * last candidate, `data.user.id`, is `null`, the user id is the text "null".
   */
  function UserIdOfAsWritten(data: Js): (id: string)
    ensures UserIdCandidate(data) == JNull ==> id == "null"
    ensures UserIdCandidate(data) != JNull ==> id == UserIdOf(data)
  {
    var candidate := UserIdCandidate(data);
    if candidate != JUndef then ToStr(candidate) else ""
  }

  function LoginOutcomeAsWritten(body: Js, stringify: Js -> string): Result<LoginResult> {
    LoginChecks(body, UserIdOfAsWritten(LoginData(body)), stringify)
  }

  /**
   * A login reply whose only user id is `null` is accepted as written, under the user "null",
   * which the history step then asks for as "null_0"; the corrected check refuses it as a
   * reply without a user id.
   */
  lemma NullUserIdCounterexample(stringify: Js -> string)
    ensures var body := JObj(map["data" := JObj(map["access_token" := JStr("t"), "user" := JObj(map["id" := JNull])])]);
      && LoginOutcomeAsWritten(body, stringify).Ok?
      && LoginOutcomeAsWritten(body, stringify).value.userId == "null"
      && HistoryUserId(None, LoginOutcomeAsWritten(body, stringify).value.userId) == "null_0"
      && LoginOutcome(body, stringify).Err?
  {
    var body := JObj(map["data" := JObj(map["access_token" := JStr("t"), "user" := JObj(map["id" := JNull])])]);
    var data := LoginData(body);
    assert UserIdCandidate(data) == JNull;
    assert !Contains("null", '_');
  }

  /** `login`: one request with the e-mail and password, then the reply's checks. */
  function Login(baseUrl: string, email: string, password: string, reply: Reply, stringify: Js -> string): (x: Exchange<LoginResult>)
    ensures |x.requests| == 1 && FieldNames(x.requests[0].form) == ["mailaddress", "password"]
    ensures x.result.Ok? ==> ParseResponse(reply).Ok? && !ApiFailed(ParseResponse(reply).value)
    ensures x.result.Ok? ==> x.result == LoginOutcome(ParseResponse(reply).value.body, stringify)
    ensures ParseResponse(reply).Ok? && !ApiFailed(ParseResponse(reply).value) ==>
      x.result == LoginOutcome(ParseResponse(reply).value.body, stringify)
  {
    var req := Request(baseUrl + "/user/user-login", None,
                       [("mailaddress", Field(email)), ("password", Field(password))]);
    Exchange([req], match ParseResponse(reply)
      case Err(m) => Err(m)
      case Ok(p) =>
        match EnsureApiSuccess(p, "login", stringify)
        case Some(m) => Err(m)
        case None => LoginOutcome(p.body, stringify))
  }

  /** The history is asked for under the override when one is given, else the login's user. */
  function HistoryUserId(userOverride: Option<string>, loginUserId: string): (r: string)
    ensures Contains(r, '_')
    ensures var u := userOverride.GetOr(loginUserId); Contains(u, '_') ==> r == u
    ensures var u := userOverride.GetOr(loginUserId); !Contains(u, '_') ==> r == u + "_0"
  {
    var effective := userOverride.GetOr(loginUserId);
    if Contains(effective, '_') then effective
    else
      var r := effective + "_0";
      assert r[|effective|] == '_';
      r
  }

  /** Deriving the history user id twice changes nothing. */
  lemma HistoryUserIdIdempotent(userOverride: Option<string>, loginUserId: string, other: string)
    ensures var r := HistoryUserId(userOverride, loginUserId);
      HistoryUserId(Some(r), other) == r
  {
  }

  // ---------------------------------------------------------------------------------------
  // get-signal and save-data
  // ---------------------------------------------------------------------------------------

  /** `(body?.data ?? {}).enhance_response?.data ?? (body?.data ?? {})`: the readings in the reply. */
  function SignalVital(body: Js): (vital: Js)
    ensures !Nullish(vital)
    ensures Nullish(OptGet(body, "data")) ==> vital == EmptyObject
  {
    var payload := Coalesce(OptGet(body, "data"), EmptyObject);
    Coalesce(OptGet(Get(payload, "enhance_response"), "data"), payload)
  }

  /**
   * The script and the server library find the same readings in a reply, unless `data` is
   * present but falsy (0, "" or false): the library, using `||`, then takes `{}`.
   */
  lemma SignalVitalAgreesWithLibrary(body: Js)
    requires !Nullish(body)
    requires Truthy(Get(body, "data")) || Nullish(Get(body, "data"))
    ensures SignalVital(body) == OnlineDoctor.Unwrap(body)
  {
  }

  lemma SignalVitalDiffersOnFalsyData()
    ensures var body := JObj(map["data" := JNum(0.0)]);
      SignalVital(body) == JNum(0.0) && OnlineDoctor.Unwrap(body) == EmptyObject
  {
  }

  /** The upload form: the clip under its file name, and the patient id when a non-empty one is given. */
  function SignalForm(file: Upload, baseName: string, patientId: Option<string>): (form: seq<(string, Part)>)
    ensures FieldNames(form) == if patientId.Some? && patientId.value != "" then ["file", "patientId"] else ["file"]
    ensures form[0].1 == Attachment(file.(isFile := true, name := baseName))
  {
    var withFile := [("file", Attachment(file.(isFile := true, name := baseName)))];
    if patientId.Some? && patientId.value != "" then withFile + [("patientId", Field(patientId.value))]
    else withFile
  }

  /**
   * `getSignal`: refuses a missing file before sending, else uploads and unwraps the readings.
   * `videoPath` is the path as given and `baseName` its last component, which the form uses.
   */
  function GetSignal(baseUrl: string, token: string, videoPath: string, found: bool, file: Upload, baseName: string,
                     patientId: Option<string>, reply: Reply, stringify: Js -> string): (x: Exchange<Js>)
    ensures !found ==> x.requests == [] && x.result == Err("Video file not found: " + videoPath)
    ensures found ==> |x.requests| == 1 && x.requests[0].authorization == Some("Bearer " + token)
    ensures found ==> x.requests[0].form == SignalForm(file, baseName, patientId)
    ensures found && ParseResponse(reply).Ok? && !ApiFailed(ParseResponse(reply).value) ==>
      x.result == Ok(SignalVital(ParseResponse(reply).value.body))
    ensures x.result.Ok? ==>
      && ParseResponse(reply).Ok? && !ApiFailed(ParseResponse(reply).value)
      && x.result.value == SignalVital(ParseResponse(reply).value.body)
  {
    if !found then Exchange([], Err("Video file not found: " + videoPath))
    else
      var req := Request(baseUrl + "/user/vital-sensing/get-signal", Some("Bearer " + token),
                         SignalForm(file, baseName, patientId));
      Exchange([req], match ParseResponse(reply)
        case Err(m) => Err(m)
        case Ok(p) =>
          match EnsureApiSuccess(p, "get-signal", stringify)
          case Some(m) => Err(m)
          case None => Ok(SignalVital(p.body)))
  }

  /** The readings `save-data` requires, in the order they are checked. */
  const RequiredFields: seq<string> := ["bpm", "bpv1", "bpv0", "S2", "LTv"]

  /** A reading that counts as missing: `undefined`, `null` or the empty text. */
  predicate Blank(v: Js) {
    v == JUndef || v == JNull || v == JStr("")
  }

  /** The index of the first key whose reading is missing, or -1. */
  function FirstBlank(vital: Js, keys: seq<string>): (i: int)
    ensures -1 <= i < |keys|
    ensures i >= 0 ==> Blank(Get(vital, keys[i]))
    ensures forall j :: 0 <= j < |keys| && (i == -1 || j < i) ==> !Blank(Get(vital, keys[j]))
  {
    if |keys| == 0 then -1
    else if Blank(Get(vital, keys[0])) then 0
    else
      var k := FirstBlank(vital, keys[1..]);
      assert forall j :: 1 <= j < |keys| ==> keys[j] == keys[1..][j - 1];
      if k == -1 then -1 else k + 1
  }

  /** The form `save-data` sends: the five readings as text, the user id, and the reception id when given. */
  function SaveForm(vital: Js, userId: string, receptionId: Option<string>): (form: seq<(string, Part)>)
    ensures |form| >= 6 && form[5] == ("user_id", Field(userId))
    ensures forall i :: 0 <= i < 5 ==>
      form[i] == ("vital_sensing_data[" + RequiredFields[i] + "]", Field(ToStr(Get(vital, RequiredFields[i]))))
    ensures |form| == (if receptionId.Some? && receptionId.value != "" then 7 else 6)
    ensures |form| == 7 ==> form[6] == ("reception_id", Field(receptionId.value))
  {
    var readings := seq(5, i requires 0 <= i < 5 =>
      ("vital_sensing_data[" + RequiredFields[i] + "]", Field(ToStr(Get(vital, RequiredFields[i])))));
    var base := readings + [("user_id", Field(userId))];
    if receptionId.Some? && receptionId.value != "" then base + [("reception_id", Field(receptionId.value))]
    else base
  }

  const MissingValue: string := "save-data missing required value from get-signal: "

  /**
   * `saveData`: a missing reading is refused before anything is sent, naming the first such
   * key; otherwise the form goes out and the reply is checked.
   */
  function SaveData(baseUrl: string, token: string, userId: string, vital: Js, receptionId: Option<string>,
                    reply: Reply, stringify: Js -> string): (x: Exchange<Js>)
    ensures (exists k :: k in RequiredFields && Blank(Get(vital, k))) <==> x.requests == []
    ensures x.requests == [] ==> x.result.Err?
    ensures x.result.Ok? ==> forall i :: 0 <= i < |RequiredFields| ==> !Blank(Get(vital, RequiredFields[i]))
    ensures FirstBlank(vital, RequiredFields) >= 0 ==>
      x.result == Err(MissingValue + RequiredFields[FirstBlank(vital, RequiredFields)])
    ensures x.requests != [] ==>
      x.requests == [Request(baseUrl + "/user/vital-sensing/save-data", Some("Bearer " + token),
                             SaveForm(vital, userId, receptionId))]
    ensures x.requests != [] && ParseResponse(reply).Ok? && !ApiFailed(ParseResponse(reply).value) ==>
      x.result == Ok(ParseResponse(reply).value.body)
    ensures x.requests != [] && ParseResponse(reply).Ok? && ApiFailed(ParseResponse(reply).value) ==>
      x.result == Err(EnsureApiSuccess(ParseResponse(reply).value, "save-data", stringify).value)
    ensures x.result.Ok? ==> ParseResponse(reply).Ok? && !ApiFailed(ParseResponse(reply).value)
  {
    var missing := FirstBlank(vital, RequiredFields);
    if missing >= 0 then
      Exchange([], Err(MissingValue + RequiredFields[missing]))
    else
      var req := Request(baseUrl + "/user/vital-sensing/save-data", Some("Bearer " + token),
                         SaveForm(vital, userId, receptionId));
      Exchange([req], match ParseResponse(reply)
        case Err(m) => Err(m)
        case Ok(p) =>
          match EnsureApiSuccess(p, "save-data", stringify)
          case Some(m) => Err(m)
          case None => Ok(p.body))
  }
}
