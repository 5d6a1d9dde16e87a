/**
 * The server route the measurement screen posts its clip to. It takes the clip from the
 * form, tries to log in to the vital-sensing service (a failed login is only logged), forwards
 * the clip, and answers with one of three envelopes: 200 with the readings, 400 with the
 * service's message, or 500 with the error's message.
 */
module VitalRoute {
  import opened Wrappers
  import opened Strings
  import opened Json
  import opened Http

  /** The environment as the route reads it: every unset variable is the empty text. */
  datatype Env = Env(baseUrl: string, email: string, password: string, basicId: string, basicPw: string)

  /**
   * `getBasicAuthHeader`: no header unless both the id and the password are set, otherwise
   * "Basic " and the Base64 form of "id:pw". The encoding is a parameter.
   */
  function BasicAuthHeader(id: string, pw: string, base64: string -> string): (r: Option<string>)
    ensures r.None? <==> id == "" || pw == ""
    ensures r.Some? ==> |r.value| >= 6 && r.value[..6] == "Basic "
  {
    if id == "" || pw == "" then None else Some("Basic " + base64(id + ":" + pw))
  }

  /** The text before and after the first colon, or the whole text and nothing. */
  function CutAtColon(s: string): (r: (string, string))
    ensures !Contains(s, ':') ==> r == (s, "")
  {
    var k := IndexOf(s, ":");
    if k == -1 then (s, "")
    else
      assert s[k] == ':' by {
        assert OccursAt(s, ":", k);
        assert s[k..k + 1][0] == s[k];
      }
      (s[..k], s[k + 1..])
  }

  /** The first colon of `p + ":" + rest` is the one after `p` when `p` has none. */
  lemma FirstColonAt(p: string, rest: string)
    requires !Contains(p, ':')
    ensures IndexOf(p + ":" + rest, ":") == |p|
  {
    var s := p + ":" + rest;
    assert OccursAt(s, ":", |p|) by {
      assert s[|p|..|p| + 1] == ":";
    }
    forall k | 0 <= k < |p|
      ensures !OccursAt(s, ":", k)
    {
      assert s[k..k + 1][0] == s[k] == p[k] != ':';
    }
  }

  /**
   * The header carries the credentials recoverably: decoding what follows "Basic " and
   * cutting at the first colon gives back the id and the password, for an id without a colon
   * (as the Basic scheme requires) and any encoding that decodes.
   */
  lemma BasicAuthRoundTrip(id: string, pw: string, base64: string -> string, decode: string -> string)
    requires forall s :: decode(base64(s)) == s
    requires id != "" && pw != "" && !Contains(id, ':')
    ensures var h := BasicAuthHeader(id, pw, base64).value;
      CutAtColon(decode(h[6..])) == (id, pw)
  {
    var s := id + ":" + pw;
    var h := BasicAuthHeader(id, pw, base64).value;
    assert h[6..] == base64(s);
    FirstColonAt(id, pw);
    assert s[..|id|] == id && s[|id| + 1..] == pw;
  }

  /** The login request, sent only when both credentials are set, with the Basic header when there is one. */
  function LoginRequest(e: Env, base64: string -> string): (r: Option<Request>)
    ensures r.None? <==> e.email == "" || e.password == ""
    ensures r.Some? ==>
      && r.value.authorization == BasicAuthHeader(e.basicId, e.basicPw, base64)
      && FieldNames(r.value.form) == ["mailaddress", "password"]
  {
    if e.email == "" || e.password == "" then None
    else Some(Request(e.baseUrl + "/y-api/v1/user/user-login", BasicAuthHeader(e.basicId, e.basicPw, base64),
                      [("mailaddress", Field(e.email)), ("password", Field(e.password))]))
  }

  /**
   * The route's `getAccessToken` on the login reply: a body that is not JSON or a `code` other
   * than the number 200 fails (the message, unlike the library's, has no fallback text);
   * otherwise the token is `data.access_token`.
   */
  function TokenOf(reply: Reply): (r: Result<Js>)
    ensures r.Ok? <==>
      (&& reply.Reply? && reply.parsed.Some? && Get(reply.parsed.value, "code") == JNum(200.0)
       && !Nullish(Get(reply.parsed.value, "data")))
    ensures r.Ok? ==> r.value == Get(Get(reply.parsed.value, "data"), "access_token")
  {
    match reply
    case NetworkError(m) => Err(m)
    case Reply(_, _, parsed) =>
      match parsed
      case None => Err("ログインAPIがJSONを返しませんでした")
      case Some(data) =>
        var code :- Prop(data, "code");
        if code != JNum(200.0) then Err("認証失敗: " + ToStr(Get(data, "message")))
        else Prop(Get(data, "data"), "access_token")
  }

  /**
   * The token the route goes on with: the login's token when both credentials are set and the
   * login succeeds; any failure to obtain one leaves the empty text.
   */
  function Token(e: Env, login: Reply): (t: Js)
    ensures e.email == "" || e.password == "" ==> t == JStr("")
    ensures TokenOf(login).Err? ==> t == JStr("")
    ensures e.email != "" && e.password != "" && TokenOf(login).Ok? ==> t == TokenOf(login).value
  {
    if e.email == "" || e.password == "" then JStr("")
    else match TokenOf(login)
      case Ok(t) => t
      case Err(_) => JStr("")
  }

  /** A response: its status and its JSON body. */
  datatype Response = Response(status: int, body: Js)

  function ErrorBody(message: Js): Js {
    JObj(map["error" := JBool(true), "message" := message])
  }

  const NoVideo: string := "動画ファイルが見つかりません"
  const NotJson: string := "APIがJSONを返しませんでした"
  const AnalysisFailed: string := "分析に失敗しました"

  /** The forwarded upload: the clip under the name `vital_scan.mp4`, with a bearer token when there is a truthy one. */
  function SignalRequest(baseUrl: string, token: Js, file: Upload): (r: Request)
    ensures r.authorization.Some? <==> Truthy(token)
    ensures Truthy(token) ==> r.authorization == Some("Bearer " + ToStr(token))
    ensures FieldNames(r.form) == ["file"]
    ensures var part := r.form[0].1;
      && part.Attachment? && part.file.isFile && part.file.name == "vital_scan.mp4"
      && part.file.(isFile := file.isFile, name := file.name) == file
  {
    Request(baseUrl + "/y-api/v1/user/vital-sensing/get-signal",
            if Truthy(token) then Some("Bearer " + ToStr(token)) else None,
            [("file", Attachment(file.(isFile := true, name := "vital_scan.mp4")))])
  }

  /** The envelope for the service's reply to the forwarded upload. */
  function Envelope(signal: Reply): (r: Response)
    ensures r.status == 200 <==>
      (&& signal.Reply? && signal.parsed.Some? && Get(signal.parsed.value, "code") == JNum(200.0)
       && Truthy(Get(signal.parsed.value, "data")))
    ensures r.status == 200 ==>
      r.body == JObj(map["code" := JNum(200.0), "data" := Get(signal.parsed.value, "data")])
    ensures r.status == 500 <==>
      (signal.NetworkError? || signal.parsed.None? || Nullish(signal.parsed.value))
    ensures r.status == 400 ==>
      r.body == ErrorBody(Or(Get(signal.parsed.value, "message"), JStr(AnalysisFailed)))
    ensures signal.NetworkError? ==> r == Response(500, ErrorBody(JStr(signal.message)))
    ensures signal.Reply? && signal.parsed.None? ==> r == Response(500, ErrorBody(JStr(NotJson)))
    ensures signal.Reply? && signal.parsed.Some? && Nullish(signal.parsed.value) ==>
      r == Response(500, ErrorBody(JStr(ReadError(signal.parsed.value, "code"))))
  {
    match signal
    case NetworkError(m) => Response(500, ErrorBody(JStr(m)))
    case Reply(_, _, parsed) =>
      match parsed
      case None => Response(500, ErrorBody(JStr(NotJson)))
      case Some(data) =>
        match Prop(data, "code")
        case Err(m) => Response(500, ErrorBody(JStr(m)))
        case Ok(code) =>
          if code == JNum(200.0) && Truthy(Get(data, "data")) then
            Response(200, JObj(map["code" := JNum(200.0), "data" := Get(data, "data")]))
          else Response(400, ErrorBody(Or(Get(data, "message"), JStr(AnalysisFailed))))
  }

  /** What the route sent and answered. */
  datatype Handled = Handled(requests: seq<Request>, response: Response)

  /**
   * `POST`: without a clip it answers 400 at once; otherwise it tries the login, forwards the
   * clip whatever became of the login, and answers with the envelope of the service's reply.
   * `file` is the form's `file` entry; `form` fails when the request body is not a form.
   */
  function Post(e: Env, base64: string -> string, form: Result<Option<Upload>>, login: Reply, signal: Reply): (h: Handled)
    ensures form.Err? ==> h.requests == [] && h.response.status == 500
    ensures form.Err? ==> h.response == Response(500, ErrorBody(JStr(form.message)))
    ensures form == Ok(None) ==> h.requests == [] && h.response == Response(400, ErrorBody(JStr(NoVideo)))
    ensures form.Ok? && form.value.Some? ==>
      && |h.requests| == (if e.email == "" || e.password == "" then 1 else 2)
      && h.requests[|h.requests| - 1] == SignalRequest(e.baseUrl, Token(e, login), form.value.value)
      && h.response == Envelope(signal)
    ensures form.Ok? && form.value.Some? ==>
      h.requests == (if e.email == "" || e.password == "" then [] else [LoginRequest(e, base64).value])
                    + [SignalRequest(e.baseUrl, Token(e, login), form.value.value)]
    ensures h.response.status in {200, 400, 500}
  {
    match form
    case Err(m) => Handled([], Response(500, ErrorBody(JStr(m))))
    case Ok(None) => Handled([], Response(400, ErrorBody(JStr(NoVideo))))
    case Ok(Some(file)) =>
      var logins := match LoginRequest(e, base64) case None => [] case Some(r) => [r];
      Handled(logins + [SignalRequest(e.baseUrl, Token(e, login), file)], Envelope(signal))
  }

  /**
   * A failed login does not stop the upload: with the credentials set and a login reply that
   * fails, the clip still goes out, without an `Authorization` header.
   */
  lemma LoginFailureIsSwallowed(e: Env, base64: string -> string, file: Upload, login: Reply, signal: Reply)
    requires e.email != "" && e.password != "" && TokenOf(login).Err?
    ensures var h := Post(e, base64, Ok(Some(file)), login, signal);
      |h.requests| == 2 && h.requests[1].authorization.None? && h.response == Envelope(signal)
  {
  }

  /** The data of a successful envelope is the service's own, passed through unchanged. */
  lemma SuccessPassesDataThrough(data: Js, status: int, text: string, rest: map<string, Js>)
    requires Truthy(data)
    ensures Envelope(Reply(status, text, Some(JObj(rest["code" := JNum(200.0)]["data" := data])))).body
      == JObj(map["code" := JNum(200.0), "data" := data])
  {
  }
}
