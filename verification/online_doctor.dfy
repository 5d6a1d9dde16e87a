/**
 * The server-side client of the external vital-sensing service: it logs in with the
 * configured e-mail and password to obtain an access token, then uploads the clip with that
 * token and turns the service's reply into the vital readings or an error. The login and the
 * upload are requests this module builds and replies it is given.
 */
module OnlineDoctor {
  import opened Wrappers
  import opened Strings
  import opened Json
  import opened Http

  /** The service's base URL when `API_BASE_URL` is unset. */
  const DefaultBaseUrl: string := "https://jvit-demo.ishachoku.com"

  /** `process.env.API_BASE_URL ?? DefaultBaseUrl`. */
  function BaseUrl(configured: Option<string>): (r: string)
    ensures configured.None? ==> r == DefaultBaseUrl
    ensures configured.Some? ==> r == configured.value
  {
    configured.GetOr(DefaultBaseUrl)
  }

  /** The environment the module reads: the base URL and the login e-mail and password, which may be unset. */
  datatype Config = Config(baseUrl: string, email: Option<string>, password: Option<string>)

  /** A setting that `!value` accepts: set, and not empty. */
  predicate Given(v: Option<string>) {
    v.Some? && v.value != ""
  }

  const MissingCredentials: string := "LOGIN_EMAIL / LOGIN_PASSWORD が設定されていません"

  /** The login request: a form of the e-mail and the password, or a refusal when either is missing. */
  function LoginRequest(c: Config): (r: Result<Request>)
    ensures r.Err? <==> !Given(c.email) || !Given(c.password)
    ensures r.Ok? ==>
      && r.value.authorization.None? && FieldNames(r.value.form) == ["mailaddress", "password"]
      && r.value.form[0].1 == Field(c.email.value) && r.value.form[1].1 == Field(c.password.value)
  {
    if !Given(c.email) || !Given(c.password) then Err(MissingCredentials)
    else Ok(Request(c.baseUrl + "/y-api/v1/user/user-login", None,
                    [("mailaddress", Field(c.email.value)), ("password", Field(c.password.value))]))
  }

  /**
   * What `getAccessToken` makes of the login reply: a body that is not JSON, a `code` other
   * than the number 200 and a body without `data` all fail; otherwise the token is
   * `data.access_token`, whatever its type.
   */
  function TokenOf(reply: Reply): (r: Result<Js>)
    ensures reply.Reply? && reply.parsed.None? ==> r.Err?
    ensures r.Ok? <==>
      (&& reply.Reply? && reply.parsed.Some? && Get(reply.parsed.value, "code") == JNum(200.0)
       && !Nullish(Get(reply.parsed.value, "data")))
    ensures r.Ok? ==> r.value == Get(Get(reply.parsed.value, "data"), "access_token")
  {
    match reply
    case NetworkError(m) => Err(m)
    case Reply(_, text, parsed) =>
      match parsed
      case None => Err("ログインAPIがJSONを返しませんでした: " + Take(text, 100))
      case Some(data) =>
        var code :- Prop(data, "code");
        if code != JNum(200.0) then
          Err("認証失敗: " + ToStr(Or(Get(data, "message"), JStr("Unknown error"))))
        else
          Prop(Get(data, "data"), "access_token")
  }

  /** `getAccessToken`: no request at all without both credentials, one login request otherwise. */
  function GetAccessToken(c: Config, login: Reply): (x: Exchange<Js>)
    ensures !Given(c.email) || !Given(c.password) ==> x.requests == [] && x.result == Err(MissingCredentials)
    ensures Given(c.email) && Given(c.password) ==>
      x.requests == [LoginRequest(c).value] && x.result == TokenOf(login)
  {
    match LoginRequest(c)
    case Err(m) => Exchange([], Err(m))
    case Ok(req) => Exchange([req], TokenOf(login))
  }

  /** The name a bare `Blob` is uploaded under. */
  const ScanFileName: string := "vital_scan.mp4"

  /** A `File` is uploaded as it is; a bare `Blob` becomes a `File` named `vital_scan.mp4`, typed `video/mp4` when it has no type. */
  function UploadFile(file: Upload): (f: Upload)
    ensures f.isFile && f.size == file.size
    ensures file.isFile ==> f == file
    ensures !file.isFile ==> f.name == ScanFileName && f.mime != "" && (file.mime != "" ==> f.mime == file.mime)
  {
    if file.isFile then file
    else Upload(true, ScanFileName, if file.mime == "" then "video/mp4" else file.mime, file.size)
  }

  /** Wrapping is idempotent: an uploaded file is uploaded unchanged. */
  lemma UploadFileIdempotent(file: Upload)
    ensures UploadFile(UploadFile(file)) == UploadFile(file)
  {
  }

  /** The patient every clip is filed under. */
  const PatientId: string := "3134_0"

  /** The upload request: exactly the file and the fixed patient id, with the token as a bearer credential. */
  function SignalRequest(c: Config, token: string, file: Upload): (r: Request)
    ensures FieldNames(r.form) == ["file", "patientId"]
    ensures r.form[0].1 == Attachment(UploadFile(file)) && r.form[1].1 == Field(PatientId)
    ensures r.authorization == Some("Bearer " + token)
  {
    Request(c.baseUrl + "/y-api/v1/user/vital-sensing/get-signal", Some("Bearer " + token),
            [("file", Attachment(UploadFile(file))), ("patientId", Field(PatientId))])
  }

  /** `typeof body.code === "number" ? body.code : 0`. */
  function BusinessCode(body: Js): (code: real)
    ensures Get(body, "code").JNum? ==> code == Get(body, "code").n
    ensures !Get(body, "code").JNum? ==> code == 0.0
  {
    match Get(body, "code")
    case JNum(n) => n
    case _ => 0.0
  }

  /**
   * The service reports a failure: an HTTP error, a numeric business code of 400 or more, or
   * `error` strictly equal to `true`. A code sent as text, or an `error` of `"true"` or `1`,
   * does not count.
   */
  function SignalFailed(status: int, body: Js): (failed: bool)
    ensures failed <==>
      || status >= 400
      || (Get(body, "code").JNum? && Get(body, "code").n >= 400.0)
      || Get(body, "error") == JBool(true)
  {
    status >= 400 || BusinessCode(body) >= 400.0 || Get(body, "error") == JBool(true)
  }

  const DefaultSignalError: string := "Lỗi phân tích Vital Signal (Không có message cụ thể)"

  /** The text of the thrown error: an array of messages joined with " | ", else the message, else a fixed text. */
  function ErrorText(body: Js): (msg: string)
    ensures var m := Get(body, "message"); m.JArr? ==> msg == Join(ElemTexts(m), Bar)
    ensures var m := Get(body, "message"); m.JStr? && m.s != "" ==> msg == m.s
    ensures var m := Get(body, "message"); !m.JArr? && Truthy(m) ==> msg == ToStr(m)
    ensures !Truthy(Get(body, "message")) ==> msg == DefaultSignalError
  {
    var m := Get(body, "message");
    if m.JArr? then ArrayJoin(m, Bar) else ToStr(Or(m, JStr(DefaultSignalError)))
  }

  /** A list of messages comes back out of the error text one by one. */
  lemma ErrorTextSplits(parts: seq<string>)
    requires |parts| >= 1
    requires forall i :: 0 <= i < |parts| ==> !Contains(parts[i], '|')
    ensures Split(ErrorText(JObj(map["message" := StrArray(parts)])), Bar) == parts
  {
    StrArrayTexts(parts);
    SplitJoinBar(parts);
  }

  /** `(body.data || {}).enhance_response?.data ?? (body.data || {})`: the vital readings in the reply. */
  function Unwrap(body: Js): (vital: Js)
    ensures !Nullish(vital)
    ensures !Truthy(Get(body, "data")) ==> vital == EmptyObject
  {
    var payload := Or(Get(body, "data"), EmptyObject);
    Coalesce(OptGet(Get(payload, "enhance_response"), "data"), payload)
  }

  /** A reply with an enhanced result yields the enhanced readings. */
  lemma UnwrapPrefersEnhanced(inner: Js, rest: map<string, Js>)
    requires !Nullish(inner)
    ensures Unwrap(JObj(map["data" := JObj(rest["enhance_response" := JObj(map["data" := inner])])])) == inner
  {
  }

  /** A reply without an enhanced result yields its `data` object as it is. */
  lemma UnwrapPlain(data: map<string, Js>)
    requires "enhance_response" !in data
    ensures Unwrap(JObj(map["data" := JObj(data)])) == JObj(data)
  {
  }

  /**
   * What `analyzeVitalSignal` makes of the upload's reply: a body that is not JSON fails, a
   * reported failure fails with the error text, anything else yields the unwrapped readings.
   */
  function SignalOutcome(reply: Reply): (r: Result<Js>)
    ensures reply.Reply? && reply.parsed.None? ==> r.Err?
    ensures r.Ok? <==>
      (&& reply.Reply? && reply.parsed.Some? && !Nullish(reply.parsed.value)
       && !SignalFailed(reply.status, reply.parsed.value))
    ensures r.Ok? ==> r.value == Unwrap(reply.parsed.value)
    ensures (&& reply.Reply? && reply.parsed.Some? && !Nullish(reply.parsed.value)
             && SignalFailed(reply.status, reply.parsed.value)) ==> r == Err(ErrorText(reply.parsed.value))
  {
    match reply
    case NetworkError(m) => Err(m)
    case Reply(status, text, parsed) =>
      match parsed
      case None => Err("API không trả về định dạng JSON (Status: " + ShowInt(status) + "): " + Take(text, 100))
      case Some(data) =>
        var _ :- Prop(data, "code");
        if SignalFailed(status, data) then Err(ErrorText(data)) else Ok(Unwrap(data))
  }

  /** The TypeError of `token.substring(0, 10)` for a token that is not a string. */
  function SubstringError(token: Js): string {
    if Nullish(token) then ReadError(token, "substring") else "token.substring is not a function"
  }

  /**
   * `analyzeVitalSignal`: the token, then the upload. The token is logged by its first ten
   * characters before the upload, which throws unless the token is a string.
   */
  function AnalyzeVitalSignal(c: Config, file: Upload, login: Reply, signal: Reply): (x: Exchange<Js>)
    ensures |x.requests| <= 2
    ensures !Given(c.email) || !Given(c.password) ==> x.requests == [] && x.result.Err?
    ensures x.result.Ok? ==>
      && |x.requests| == 2 && x.requests[0] == LoginRequest(c).value
      && TokenOf(login).Ok? && TokenOf(login).value.JStr?
      && x.requests[1] == SignalRequest(c, TokenOf(login).value.s, file)
      && x.result == SignalOutcome(signal)
    ensures signal.Reply? && signal.parsed.None? ==> x.result.Err?
    ensures Given(c.email) && Given(c.password) && TokenOf(login).Err? ==>
      x.requests == [LoginRequest(c).value] && x.result == Err(TokenOf(login).message)
    ensures Given(c.email) && Given(c.password) && TokenOf(login).Ok? && !TokenOf(login).value.JStr? ==>
      x.requests == [LoginRequest(c).value] && x.result == Err(SubstringError(TokenOf(login).value))
    ensures Given(c.email) && Given(c.password) && TokenOf(login).Ok? && TokenOf(login).value.JStr? ==>
      && x.requests == [LoginRequest(c).value, SignalRequest(c, TokenOf(login).value.s, file)]
      && x.result == SignalOutcome(signal)
  {
    var t := GetAccessToken(c, login);
    match t.result
    case Err(m) => Exchange(t.requests, Err(m))
    case Ok(token) =>
      if !token.JStr? then
        Exchange(t.requests, Err(SubstringError(token)))
      else
        Exchange(t.requests + [SignalRequest(c, token.s, file)], SignalOutcome(signal))
  }

  /** A successful analysis sends the clip exactly once, and only after a successful login. */
  lemma AnalysisSendsClipOnce(c: Config, file: Upload, login: Reply, signal: Reply)
    requires AnalyzeVitalSignal(c, file, login, signal).result.Ok?
    ensures var x := AnalyzeVitalSignal(c, file, login, signal);
      && FieldNames(x.requests[0].form) == ["mailaddress", "password"]
      && FieldNames(x.requests[1].form) == ["file", "patientId"]
      && !SignalFailed(signal.status, signal.parsed.value)
  {
  }
}
