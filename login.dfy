/**
 * The login page of src/pages/Login.tsx: the form rule, and `onSubmit`,
 * the one place a session is created. jwtDecode is the parameter `decode`
 * (None when it throws); zod's e-mail check is the input `emailValid`.
 */
module Login {
  import opened Wrappers
  import opened Paths
  import opened AuthStore
  import opened Client

  const MinPasswordLength := 6
  const LoginUrl := "/auth/login"
  const TokenField := "access_token"

  /** The claims read from the decoded token. */
  datatype Claims = Claims(sub: string, email: string, role: string)

  datatype LoginError =
    | InvalidForm        // the schema rejected the form: onSubmit is not called
    | RequestFailed      // the login request rejected
    | NullBody           // the reply body is null: reading `res.access_token` throws
    | Unsettled          // the login request did not settle within the depth bound
    | InvalidToken       // access_token missing, empty or not a string
    | UndecodableToken   // jwtDecode threw

  /** What the page records, in order: store writes and navigations. */
  datatype LoginEvent = SessionSet(patch: SessionPatch) | Navigated(path: string, replace: bool)

  /**
   * The length JavaScript reports for a string: its UTF-16 code units, two
   * for each character outside the Basic Multilingual Plane.
   */
  function Utf16Length(s: string): (n: nat)
    ensures |s| <= n <= 2 * |s|
    ensures (forall i :: 0 <= i < |s| ==> s[i] as int < 0x1_0000) ==> n == |s|
    decreases |s|
  {
    if s == [] then 0
    else (if s[0] as int < 0x1_0000 then 1 else 2) + Utf16Length(s[1..])
  }

  /** The schema (Login.tsx:11-14): a valid e-mail and a password of at least six UTF-16 code units. */
  predicate FormAccepted(emailValid: bool, password: string) {
    emailValid && Utf16Length(password) >= MinPasswordLength
  }

  /** Three emoji are six code units, so zod's `.min(6)` accepts them; two emoji and a letter are five and are refused. */
  lemma AstralCharactersCountTwice()
    ensures FormAccepted(true, "\U{1F600}\U{1F600}\U{1F600}")
    ensures !FormAccepted(true, "\U{1F600}\U{1F600}a")
  {
    var e := "\U{1F600}\U{1F600}\U{1F600}";
    assert e[1..] == "\U{1F600}\U{1F600}" && e[1..][1..] == "\U{1F600}";
    var f := "\U{1F600}\U{1F600}a";
    assert f[1..] == "\U{1F600}a" && f[1..][1..] == "a";
  }

  /** `login(email, password)`: POST /auth/login with the credentials. */
  function LoginConfig(email: string, password: string): Config {
    Config(POST, LoginUrl, Json(map["email" := Str(email), "password" := Str(password)]), map[])
  }

  /** The check of Login.tsx:32: `!token || typeof token !== 'string'` must be false. */
  predicate HasValidToken(data: map<string, Value>) {
    TokenField in data && data[TokenField].Str? && data[TokenField].s != ""
  }

  /** The session onSubmit builds from a login reply (Login.tsx:30-43). */
  function SessionFor(data: Data, decode: string -> Option<Claims>): (r: Result<SessionPatch, LoginError>)
    ensures r.Success? <==>
      data.Object? && HasValidToken(data.fields) && decode(data.fields[TokenField].s).Some?
    ensures r.Failure? ==>
      r.error == if data.Null? then NullBody else if HasValidToken(data.fields) then UndecodableToken else InvalidToken
    ensures r.Success? ==>
      var token := data.fields[TokenField].s;
      var claims := decode(token).value;
      && r.value.token == Some(token)
      && r.value.refreshToken == None
      && r.value.user == Put(Some(User(claims.sub, claims.email, claims.role)))
  {
    if data.Null? then Failure(NullBody)
    else if !(TokenField in data.fields && data.fields[TokenField].Str? && data.fields[TokenField].s != "") then Failure(InvalidToken)
    else
      var token := data.fields[TokenField].s;
      match decode(token)
      case None => Failure(UndecodableToken)
      case Some(claims) => Success(SessionPatch(Some(token), None, Put(Some(User(claims.sub, claims.email, claims.role)))))
  }

  /**
   * A session created by login has no refresh token, so the first later 401
   * takes the logout branch at once: no refresh request is sent.
   */
  lemma LoginSessionCannotRefresh(data: Data, decode: string -> Option<Claims>, p: SessionPatch,
                                  respond: (nat, Config) -> Reply, w: World, cfg: Config, fuel: nat)
    requires SessionFor(data, decode) == Success(p)
    requires exists before: StoreState :: w.store == Step(before, SetSessionCall(p))
    requires fuel > 0
    requires respond(|w.sent|, Intercept(cfg, w.store.session.token)).Reply?
    requires respond(|w.sent|, Intercept(cfg, w.store.session.token)).status == 401
    ensures var r := Run(respond, w, cfg, fuel);
      r.out.Rejected? && r.world.store == LoggedOut &&
      |r.world.sent| == |w.sent| + 1 && r.world.hrefs == w.hrefs + [LoginPath]
  {
    UnauthorizedWithoutRefreshToken(respond, w, cfg, fuel);
  }

  class LoginPage {
    const client: ApiClient
    var trace: seq<LoginEvent>

    constructor (client: ApiClient)
      ensures this.client == client && trace == []
    {
      this.client := client;
      trace := [];
    }

    /** handleSubmit(onSubmit): validation, then onSubmit (Login.tsx:27-53). */
    method Submit(email: string, emailValid: bool, password: string, decode: string -> Option<Claims>, fuel: nat)
      returns (r: Result<SessionPatch, LoginError>)
      modifies this, client, client.store, client.backend
      ensures !FormAccepted(emailValid, password) ==>
        r == Failure(InvalidForm) && client.WorldOf() == old(client.WorldOf()) && trace == old(trace)
      ensures FormAccepted(emailValid, password) ==>
        var s := Run(client.backend.respond, old(client.WorldOf()), LoginConfig(email, password), fuel);
        if s.out.Resolved? then
          && r == SessionFor(s.out.response.data, decode)
          && (r.Success? ==>
                client.WorldOf() == s.world.(store := Step(s.world.store, SetSessionCall(r.value))) &&
                trace == old(trace) + [SessionSet(r.value), Navigated(HomePath, true)])
          && (r.Failure? ==> client.WorldOf() == s.world && trace == old(trace))
        else
          r == Failure(if s.out.Rejected? then RequestFailed else Unsettled) &&
          client.WorldOf() == s.world && trace == old(trace)
    {
      if !(emailValid && Utf16Length(password) >= MinPasswordLength) {
        return Failure(InvalidForm);
      }
      var out := client.Request(LoginConfig(email, password), fuel);
      if !out.Resolved? {
        return Failure(if out.Rejected? then RequestFailed else Unsettled);
      }
      if out.response.data.Null? {
        return Failure(NullBody);
      }
      var data := out.response.data.fields;
      if !(TokenField in data && data[TokenField].Str? && data[TokenField].s != "") {
        return Failure(InvalidToken);
      }
      var token := data[TokenField].s;
      var decoded := decode(token);
      if decoded.None? {
        return Failure(UndecodableToken);
      }
      var user := User(decoded.value.sub, decoded.value.email, decoded.value.role);
      var patch := SessionPatch(Some(token), None, Put(Some(user)));
      client.store.SetSession(patch);
      trace := trace + [SessionSet(patch)];
      trace := trace + [Navigated(HomePath, true)];
      r := Success(patch);
    }
  }
}
