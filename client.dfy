/**
 * The axios instance of src/api/client.ts with its two interceptors.
 *
 * The backend is an oracle `respond(i, c)`: the reply to the i-th request sent,
 * whose configuration (after the request interceptor) is c. Assignments to
 * window.location.href are recorded in `hrefs`. Every call of `api.request`
 * (the caller's, the refresh at line 29 and the retry at line 32) passes
 * through both interceptors again; `fuel` bounds the depth of that re-entry,
 * which the source itself does not bound.
 */
module Client {
  import opened Wrappers
  import opened Paths
  import opened AuthStore

  const AuthorizationHeader := "Authorization"
  const RefreshUrl := "/auth/refresh"

  datatype Verb = GET | POST | PATCH | DELETE

  /** A JSON value: a string, or any value that is not a string. */
  datatype Value = Str(s: string) | NonString

  datatype Body = NoBody | Json(fields: map<string, Value>)

  datatype Config = Config(verb: Verb, url: string, body: Body, headers: map<string, string>)

  /**
   * A response body: JSON null, on which reading a property throws, or an
   * object (any other value reads as an object without the fields asked for).
   */
  datatype Data = Null | Object(fields: map<string, Value>)

  /** What the backend does with one request: no response at all, or a status and a body. */
  datatype Reply = NoReply | Reply(status: int, data: Data)

  datatype Response = Response(status: int, data: Data, config: Config)

  datatype AxiosError = AxiosError(config: Config, response: Option<Response>)

  datatype Outcome = Resolved(response: Response) | Rejected(error: AxiosError) | OutOfFuel

  /** Everything a request can change: the store, the requests sent so far, the hrefs assigned. */
  datatype World = World(store: StoreState, sent: seq<Config>, hrefs: seq<string>)

  datatype Settled = Settled(out: Outcome, world: World)

  function Bearer(token: string): string {
    "Bearer " + token
  }

  /** axios's default validateStatus: 2xx resolves, everything else rejects. */
  predicate IsSuccess(status: int) {
    200 <= status < 300
  }

  /** The request interceptor (client.ts:10-15): attach the store's token if it is truthy. */
  function Intercept(cfg: Config, token: Option<string>): (r: Config)
    ensures r.verb == cfg.verb && r.url == cfg.url && r.body == cfg.body
    ensures Truthy(token) ==> AuthorizationHeader in r.headers && r.headers[AuthorizationHeader] == Bearer(token.value)
    ensures forall k :: k != AuthorizationHeader ==>
      (k in r.headers <==> k in cfg.headers) && (k in cfg.headers ==> r.headers[k] == cfg.headers[k])
    ensures !Truthy(token) ==> r == cfg
  {
    if Truthy(token) then cfg.(headers := cfg.headers[AuthorizationHeader := Bearer(token.value)]) else cfg
  }

  /** `api.post('/auth/refresh', { refreshToken })`: a new configuration with no headers of its own. */
  function RefreshConfig(refreshToken: string): Config {
    Config(POST, RefreshUrl, Json(map["refreshToken" := Str(refreshToken)]), map[])
  }

  /** `r.data.accessToken`, where a missing or non-string field reads as absent. */
  function AccessTokenOf(data: map<string, Value>): Option<string> {
    if "accessToken" in data && data["accessToken"].Str? then Some(data["accessToken"].s) else None
  }

  /** A template literal's rendering of a token that may be undefined. */
  function Rendered(token: Option<string>): string {
    if token.Some? then token.value else "undefined"
  }

  /** client.ts:31: the failed request's configuration with the new bearer header. */
  function RetryConfig(failed: Config, accessToken: Option<string>): Config {
    failed.(headers := failed.headers[AuthorizationHeader := Bearer(Rendered(accessToken))])
  }

  /** client.ts:34-35: logout, then `window.location.href = '/login'`. */
  function LogoutAndRedirect(w: World): World {
    w.(store := Step(w.store, LogoutCall), hrefs := w.hrefs + [LoginPath])
  }

  /**
   * One `api.request(cfg)` through both interceptors: the specification that
   * ApiClient.Request implements. RunFacts states what it guarantees.
   */
  function Run(respond: (nat, Config) -> Reply, w: World, cfg: Config, fuel: nat): Settled
    decreases fuel, 0
  {
    if fuel == 0 then Settled(OutOfFuel, w)
    else
      var sentCfg := Intercept(cfg, w.store.session.token);
      var reply := respond(|w.sent|, sentCfg);
      var w1 := w.(sent := w.sent + [sentCfg]);
      if reply.Reply? && IsSuccess(reply.status) then
        Settled(Resolved(Response(reply.status, reply.data, sentCfg)), w1)
      else
        OnRejected(respond, w1, AxiosError(sentCfg, if reply.Reply? then Some(Response(reply.status, reply.data, sentCfg)) else None), fuel - 1)
  }

  /**
   * The response error interceptor (client.ts:22-39), in the world after the
   * failed request was sent; the nested `api` calls get `fuel`.
   */
  function OnRejected(respond: (nat, Config) -> Reply, w: World, error: AxiosError, fuel: nat): Settled
    decreases fuel, 1
  {
    if error.response.Some? && error.response.value.status == 401 then
      var refreshToken := w.store.session.refreshToken;
      if !Truthy(refreshToken) then
        Settled(Rejected(error), LogoutAndRedirect(w))
      else
        var refresh := Run(respond, w, RefreshConfig(refreshToken.value), fuel);
        match refresh.out
        case OutOfFuel => refresh
        case Rejected(_) => Settled(Rejected(error), LogoutAndRedirect(refresh.world))
        case Resolved(res) =>
          // reading `r.data.accessToken` of a null body throws inside the try
          if res.data.Null? then Settled(Rejected(error), LogoutAndRedirect(refresh.world))
          else
            var accessToken := AccessTokenOf(res.data.fields);
            var w2 := refresh.world.(store := Step(refresh.world.store, SetSessionCall(SessionPatch(accessToken, refreshToken, Keep))));
            Run(respond, w2, RetryConfig(error.config, accessToken), fuel)
    else
      Settled(Rejected(error), w)
  }

  /**
   * What every call guarantees, however the backend answers: the request log
   * and hrefs only grow; only "/login" is assigned, and only together with
   * logout and a rejection; without a logout the user and refresh token are
   * untouched; and every result or error belongs to a request the call sent.
   */
  lemma {:induction false} RunFacts(respond: (nat, Config) -> Reply, w: World, cfg: Config, fuel: nat)
    ensures var r := Run(respond, w, cfg, fuel);
      && w.sent <= r.world.sent
      && w.hrefs <= r.world.hrefs
      && (forall i :: |w.hrefs| <= i < |r.world.hrefs| ==> r.world.hrefs[i] == LoginPath)
      && (r.world.hrefs != w.hrefs ==> r.out.Rejected? && r.world.store == LoggedOut)
      && (r.world.hrefs == w.hrefs ==>
            r.world.store.session.user == w.store.session.user &&
            r.world.store.session.refreshToken == w.store.session.refreshToken)
      && (r.out.Resolved? ==> exists i :: |w.sent| <= i < |r.world.sent| && r.world.sent[i] == r.out.response.config)
      && (r.out.Rejected? ==> exists i :: |w.sent| <= i < |r.world.sent| && r.world.sent[i] == r.out.error.config)
    decreases fuel, 0
  {
    if fuel > 0 {
      var sentCfg := Intercept(cfg, w.store.session.token);
      var reply := respond(|w.sent|, sentCfg);
      var w1 := w.(sent := w.sent + [sentCfg]);
      assert w1.sent[|w.sent|] == sentCfg;
      if !(reply.Reply? && IsSuccess(reply.status)) {
        OnRejectedFacts(respond, w1, AxiosError(sentCfg, if reply.Reply? then Some(Response(reply.status, reply.data, sentCfg)) else None), fuel - 1);
      }
    }
  }

  /** The same guarantees for the error handler, where a rejection may also carry the original error. */
  lemma {:induction false} OnRejectedFacts(respond: (nat, Config) -> Reply, w: World, error: AxiosError, fuel: nat)
    ensures var r := OnRejected(respond, w, error, fuel);
      && w.sent <= r.world.sent
      && w.hrefs <= r.world.hrefs
      && (forall i :: |w.hrefs| <= i < |r.world.hrefs| ==> r.world.hrefs[i] == LoginPath)
      && (r.world.hrefs != w.hrefs ==> r.out.Rejected? && r.world.store == LoggedOut)
      && (r.world.hrefs == w.hrefs ==>
            r.world.store.session.user == w.store.session.user &&
            r.world.store.session.refreshToken == w.store.session.refreshToken)
      && (r.out.Resolved? ==> exists i :: |w.sent| <= i < |r.world.sent| && r.world.sent[i] == r.out.response.config)
      && (r.out.Rejected? && r.out.error != error ==>
            exists i :: |w.sent| <= i < |r.world.sent| && r.world.sent[i] == r.out.error.config)
    decreases fuel, 1
  {
    if error.response.Some? && error.response.value.status == 401 {
      var refreshToken := w.store.session.refreshToken;
      if Truthy(refreshToken) {
        var refresh := Run(respond, w, RefreshConfig(refreshToken.value), fuel);
        RunFacts(respond, w, RefreshConfig(refreshToken.value), fuel);
        if refresh.out.Resolved? && refresh.out.response.data.Object? {
          var accessToken := AccessTokenOf(refresh.out.response.data.fields);
          var w2 := refresh.world.(store := Step(refresh.world.store, SetSessionCall(SessionPatch(accessToken, refreshToken, Keep))));
          RunFacts(respond, w2, RetryConfig(error.config, accessToken), fuel);
        }
      }
    }
  }

  /** The first request a call sends is its own configuration, carrying the bearer of the current token. */
  lemma FirstRequestCarriesBearer(respond: (nat, Config) -> Reply, w: World, cfg: Config, fuel: nat)
    requires fuel > 0
    ensures var r := Run(respond, w, cfg, fuel);
      |r.world.sent| > |w.sent| && r.world.sent[|w.sent|] == Intercept(cfg, w.store.session.token)
  {
    var sentCfg := Intercept(cfg, w.store.session.token);
    var reply := respond(|w.sent|, sentCfg);
    var w1 := w.(sent := w.sent + [sentCfg]);
    assert w1.sent[|w.sent|] == sentCfg;
    if !(reply.Reply? && IsSuccess(reply.status)) {
      OnRejectedFacts(respond, w1, AxiosError(sentCfg, if reply.Reply? then Some(Response(reply.status, reply.data, sentCfg)) else None), fuel - 1);
    }
  }

  /** A 2xx reply is returned unchanged, and nothing but the request log changes. */
  lemma SuccessPassesThrough(respond: (nat, Config) -> Reply, w: World, cfg: Config, fuel: nat)
    requires fuel > 0
    requires var reply := respond(|w.sent|, Intercept(cfg, w.store.session.token));
      reply.Reply? && IsSuccess(reply.status)
    ensures var sentCfg := Intercept(cfg, w.store.session.token);
      var reply := respond(|w.sent|, sentCfg);
      Run(respond, w, cfg, fuel) ==
        Settled(Resolved(Response(reply.status, reply.data, sentCfg)), w.(sent := w.sent + [sentCfg]))
  {
  }

  /** No response, or a status other than 2xx and 401: the same error is rejected, with no refresh and no store change. */
  lemma OtherErrorsPassThrough(respond: (nat, Config) -> Reply, w: World, cfg: Config, fuel: nat)
    requires fuel > 0
    requires var reply := respond(|w.sent|, Intercept(cfg, w.store.session.token));
      reply.NoReply? || (!IsSuccess(reply.status) && reply.status != 401)
    ensures var sentCfg := Intercept(cfg, w.store.session.token);
      var reply := respond(|w.sent|, sentCfg);
      var response := if reply.Reply? then Some(Response(reply.status, reply.data, sentCfg)) else None;
      Run(respond, w, cfg, fuel) == Settled(Rejected(AxiosError(sentCfg, response)), w.(sent := w.sent + [sentCfg]))
  {
  }

  /** A 401 without a refresh token: no refresh request, logout, redirect to /login, the original error. */
  lemma UnauthorizedWithoutRefreshToken(respond: (nat, Config) -> Reply, w: World, cfg: Config, fuel: nat)
    requires fuel > 0
    requires respond(|w.sent|, Intercept(cfg, w.store.session.token)).Reply?
    requires respond(|w.sent|, Intercept(cfg, w.store.session.token)).status == 401
    requires !Truthy(w.store.session.refreshToken)
    ensures var sentCfg := Intercept(cfg, w.store.session.token);
      var reply := respond(|w.sent|, sentCfg);
      Run(respond, w, cfg, fuel) ==
        Settled(Rejected(AxiosError(sentCfg, Some(Response(401, reply.data, sentCfg)))),
                World(LoggedOut, w.sent + [sentCfg], w.hrefs + [LoginPath]))
  {
  }

  /** A 401 with a refresh token: the next request is POST /auth/refresh with that token, under the old bearer. */
  lemma UnauthorizedIssuesRefresh(respond: (nat, Config) -> Reply, w: World, cfg: Config, fuel: nat)
    requires fuel > 1
    requires respond(|w.sent|, Intercept(cfg, w.store.session.token)).Reply?
    requires respond(|w.sent|, Intercept(cfg, w.store.session.token)).status == 401
    requires Truthy(w.store.session.refreshToken)
    ensures var r := Run(respond, w, cfg, fuel);
      |r.world.sent| > |w.sent| + 1 &&
      r.world.sent[|w.sent| + 1] == Intercept(RefreshConfig(w.store.session.refreshToken.value), w.store.session.token)
  {
    var sentCfg := Intercept(cfg, w.store.session.token);
    var w1 := w.(sent := w.sent + [sentCfg]);
    var error := AxiosError(sentCfg, Some(Response(401, respond(|w.sent|, sentCfg).data, sentCfg)));
    assert Run(respond, w, cfg, fuel) == OnRejected(respond, w1, error, fuel - 1);
    var rt := w.store.session.refreshToken;
    FirstRequestCarriesBearer(respond, w1, RefreshConfig(rt.value), fuel - 1);
    var refresh := Run(respond, w1, RefreshConfig(rt.value), fuel - 1);
    if refresh.out.Resolved? && refresh.out.response.data.Object? {
      var accessToken := AccessTokenOf(refresh.out.response.data.fields);
      var w2 := refresh.world.(store := Step(refresh.world.store, SetSessionCall(SessionPatch(accessToken, rt, Keep))));
      RunFacts(respond, w2, RetryConfig(sentCfg, accessToken), fuel - 1);
    }
  }

  /**
   * A granted refresh inside the error handler: the store gets the new access
   * token (refresh token and user kept) and the handler's result is that of
   * the failed request retried with Bearer <accessToken>.
   */
  lemma RefreshGranted(respond: (nat, Config) -> Reply, w: World, error: AxiosError, fuel: nat)
    requires fuel > 0
    requires error.response.Some? && error.response.value.status == 401
    requires Truthy(w.store.session.refreshToken)
    requires var reply := respond(|w.sent|, Intercept(RefreshConfig(w.store.session.refreshToken.value), w.store.session.token));
      reply.Reply? && IsSuccess(reply.status) && reply.data.Object?
    ensures var rt := w.store.session.refreshToken;
      var refreshCfg := Intercept(RefreshConfig(rt.value), w.store.session.token);
      var accessToken := AccessTokenOf(respond(|w.sent|, refreshCfg).data.fields);
      OnRejected(respond, w, error, fuel) ==
        Run(respond, World(StoreState(Session(accessToken, rt, w.store.session.user), true), w.sent + [refreshCfg], w.hrefs),
            RetryConfig(error.config, accessToken), fuel)
  {
    SuccessPassesThrough(respond, w, RefreshConfig(w.store.session.refreshToken.value), fuel);
  }

  /**
   * The refresh succeeds: the store holds the new access token with the refresh
   * token and user unchanged, the retried request carries Bearer <accessToken>,
   * and the caller receives the retry's result.
   */
  lemma RefreshThenRetry(respond: (nat, Config) -> Reply, w: World, cfg: Config, fuel: nat)
    requires fuel > 1
    requires Truthy(w.store.session.refreshToken)
    requires var k := |w.sent|;
      var sentCfg := Intercept(cfg, w.store.session.token);
      var refreshCfg := Intercept(RefreshConfig(w.store.session.refreshToken.value), w.store.session.token);
      && respond(k, sentCfg).Reply? && respond(k, sentCfg).status == 401
      && respond(k + 1, refreshCfg).Reply? && IsSuccess(respond(k + 1, refreshCfg).status)
      && respond(k + 1, refreshCfg).data.Object?
    ensures var k := |w.sent|;
      var sentCfg := Intercept(cfg, w.store.session.token);
      var refreshCfg := Intercept(RefreshConfig(w.store.session.refreshToken.value), w.store.session.token);
      var accessToken := AccessTokenOf(respond(k + 1, refreshCfg).data.fields);
      var newStore := StoreState(Session(accessToken, w.store.session.refreshToken, w.store.session.user), true);
      var retryCfg := Intercept(RetryConfig(sentCfg, accessToken), accessToken);
      && retryCfg.headers[AuthorizationHeader] == Bearer(Rendered(accessToken))
      && Run(respond, w, cfg, fuel) ==
           Run(respond, World(newStore, w.sent + [sentCfg, refreshCfg], w.hrefs), RetryConfig(sentCfg, accessToken), fuel - 1)
      && var r := Run(respond, w, cfg, fuel);
         |r.world.sent| > k + 2 && r.world.sent[k + 2] == retryCfg
  {
    var k := |w.sent|;
    var sentCfg := Intercept(cfg, w.store.session.token);
    var rt := w.store.session.refreshToken;
    var refreshCfg := Intercept(RefreshConfig(rt.value), w.store.session.token);
    var w1 := w.(sent := w.sent + [sentCfg]);
    var error := AxiosError(sentCfg, Some(Response(401, respond(k, sentCfg).data, sentCfg)));
    assert Run(respond, w, cfg, fuel) == OnRejected(respond, w1, error, fuel - 1);
    RefreshGranted(respond, w1, error, fuel - 1);
    assert w1.sent + [refreshCfg] == w.sent + [sentCfg, refreshCfg];
    var accessToken := AccessTokenOf(respond(k + 1, refreshCfg).data.fields);
    var w2 := World(StoreState(Session(accessToken, rt, w.store.session.user), true), w.sent + [sentCfg, refreshCfg], w.hrefs);
    FirstRequestCarriesBearer(respond, w2, RetryConfig(sentCfg, accessToken), fuel - 1);
  }

  /**
   * The user outlives its token: a granted refresh whose reply has no string
   * `accessToken` stores no token but keeps the user and the refresh token,
   * and when the retry then succeeds the call ends in that state.
   */
  lemma RefreshWithoutAccessTokenKeepsUser(respond: (nat, Config) -> Reply, w: World, cfg: Config, fuel: nat)
    requires fuel > 2
    requires Truthy(w.store.session.refreshToken)
    requires var k := |w.sent|;
      var sentCfg := Intercept(cfg, w.store.session.token);
      var refreshCfg := Intercept(RefreshConfig(w.store.session.refreshToken.value), w.store.session.token);
      var retryCfg := RetryConfig(sentCfg, None);
      && respond(k, sentCfg).Reply? && respond(k, sentCfg).status == 401
      && respond(k + 1, refreshCfg).Reply? && IsSuccess(respond(k + 1, refreshCfg).status)
      && respond(k + 1, refreshCfg).data.Object?
      && AccessTokenOf(respond(k + 1, refreshCfg).data.fields).None?
      && respond(k + 2, retryCfg).Reply? && IsSuccess(respond(k + 2, retryCfg).status)
    ensures var r := Run(respond, w, cfg, fuel);
      && r.out.Resolved?
      && r.world.store == StoreState(Session(None, w.store.session.refreshToken, w.store.session.user), true)
      && r.world.hrefs == w.hrefs
  {
    var k := |w.sent|;
    var sentCfg := Intercept(cfg, w.store.session.token);
    var refreshCfg := Intercept(RefreshConfig(w.store.session.refreshToken.value), w.store.session.token);
    RefreshThenRetry(respond, w, cfg, fuel);
    var newStore := StoreState(Session(None, w.store.session.refreshToken, w.store.session.user), true);
    var w2 := World(newStore, w.sent + [sentCfg, refreshCfg], w.hrefs);
    assert Intercept(RetryConfig(sentCfg, None), None) == RetryConfig(sentCfg, None);
    SuccessPassesThrough(respond, w2, RetryConfig(sentCfg, None), fuel - 1);
  }

  /** The refresh call fails: logout, redirect to /login, the original error; no retry is sent. */
  lemma RefreshFailureLogsOut(respond: (nat, Config) -> Reply, w: World, cfg: Config, fuel: nat)
    requires fuel > 1
    requires Truthy(w.store.session.refreshToken)
    requires var k := |w.sent|;
      var sentCfg := Intercept(cfg, w.store.session.token);
      var refreshCfg := Intercept(RefreshConfig(w.store.session.refreshToken.value), w.store.session.token);
      && respond(k, sentCfg).Reply? && respond(k, sentCfg).status == 401
      && (respond(k + 1, refreshCfg).NoReply? ||
          (!IsSuccess(respond(k + 1, refreshCfg).status) && respond(k + 1, refreshCfg).status != 401))
    ensures var k := |w.sent|;
      var sentCfg := Intercept(cfg, w.store.session.token);
      var refreshCfg := Intercept(RefreshConfig(w.store.session.refreshToken.value), w.store.session.token);
      Run(respond, w, cfg, fuel) ==
        Settled(Rejected(AxiosError(sentCfg, Some(Response(401, respond(k, sentCfg).data, sentCfg)))),
                World(LoggedOut, w.sent + [sentCfg, refreshCfg], w.hrefs + [LoginPath]))
  {
    var sentCfg := Intercept(cfg, w.store.session.token);
    var w1 := w.(sent := w.sent + [sentCfg]);
    var error := AxiosError(sentCfg, Some(Response(401, respond(|w.sent|, sentCfg).data, sentCfg)));
    assert Run(respond, w, cfg, fuel) == OnRejected(respond, w1, error, fuel - 1);
    OtherErrorsPassThrough(respond, w1, RefreshConfig(w.store.session.refreshToken.value), fuel - 1);
  }

  /**
   * The retried request fails with no response or a status other than 2xx and
   * 401: its own error escapes the catch (the promise is returned without
   * await), so there is no logout and no redirect.
   */
  lemma RetryFailureEscapes(respond: (nat, Config) -> Reply, w: World, cfg: Config, fuel: nat)
    requires fuel > 1
    requires Truthy(w.store.session.refreshToken)
    requires var k := |w.sent|;
      var sentCfg := Intercept(cfg, w.store.session.token);
      var refreshCfg := Intercept(RefreshConfig(w.store.session.refreshToken.value), w.store.session.token);
      && respond(k, sentCfg).Reply? && respond(k, sentCfg).status == 401
      && respond(k + 1, refreshCfg).Reply? && IsSuccess(respond(k + 1, refreshCfg).status)
      && respond(k + 1, refreshCfg).data.Object?
    requires var k := |w.sent|;
      var sentCfg := Intercept(cfg, w.store.session.token);
      var refreshCfg := Intercept(RefreshConfig(w.store.session.refreshToken.value), w.store.session.token);
      var accessToken := AccessTokenOf(respond(k + 1, refreshCfg).data.fields);
      var retryCfg := Intercept(RetryConfig(sentCfg, accessToken), accessToken);
      (respond(k + 2, retryCfg).NoReply? ||
          (!IsSuccess(respond(k + 2, retryCfg).status) && respond(k + 2, retryCfg).status != 401))
    ensures var k := |w.sent|;
      var sentCfg := Intercept(cfg, w.store.session.token);
      var refreshCfg := Intercept(RefreshConfig(w.store.session.refreshToken.value), w.store.session.token);
      var accessToken := AccessTokenOf(respond(k + 1, refreshCfg).data.fields);
      var retryCfg := Intercept(RetryConfig(sentCfg, accessToken), accessToken);
      var reply := respond(k + 2, retryCfg);
      var response := if reply.Reply? then Some(Response(reply.status, reply.data, retryCfg)) else None;
      Run(respond, w, cfg, fuel) ==
        Settled(Rejected(AxiosError(retryCfg, response)),
                World(StoreState(Session(accessToken, w.store.session.refreshToken, w.store.session.user), true),
                      w.sent + [sentCfg, refreshCfg, retryCfg], w.hrefs))
  {
    var k := |w.sent|;
    var sentCfg := Intercept(cfg, w.store.session.token);
    var rt := w.store.session.refreshToken;
    var refreshCfg := Intercept(RefreshConfig(rt.value), w.store.session.token);
    var w1 := w.(sent := w.sent + [sentCfg]);
    var error := AxiosError(sentCfg, Some(Response(401, respond(k, sentCfg).data, sentCfg)));
    assert Run(respond, w, cfg, fuel) == OnRejected(respond, w1, error, fuel - 1);
    RefreshGranted(respond, w1, error, fuel - 1);
    assert w1.sent + [refreshCfg] == w.sent + [sentCfg, refreshCfg];
    var accessToken := AccessTokenOf(respond(k + 1, refreshCfg).data.fields);
    var w2 := World(StoreState(Session(accessToken, rt, w.store.session.user), true), w.sent + [sentCfg, refreshCfg], w.hrefs);
    OtherErrorsPassThrough(respond, w2, RetryConfig(sentCfg, accessToken), fuel - 1);
    var retryCfg := Intercept(RetryConfig(sentCfg, accessToken), accessToken);
    assert w2.sent + [retryCfg] == w.sent + [sentCfg, refreshCfg, retryCfg];
  }

  /** A backend that refuses every ordinary request with 401 and grants every refresh. */
  ghost predicate RefusesAllButRefresh(respond: (nat, Config) -> Reply, accessToken: string) {
    forall i: nat, c: Config :: respond(i, c) ==
      if c.url == RefreshUrl then Reply(200, Object(map["accessToken" := Str(accessToken)])) else Reply(401, Object(map[]))
  }

  /**
   * There is no bound on refresh attempts: against a backend that grants
   * every refresh but answers every other request with 401, each retry
   * re-enters the handler and refreshes again, so only the depth bound ends
   * the cycle, after 2 * fuel - 1 requests.
   */
  lemma {:induction false} EndlessRefresh(respond: (nat, Config) -> Reply, accessToken: string, w: World, cfg: Config, fuel: nat)
    requires RefusesAllButRefresh(respond, accessToken)
    requires Truthy(w.store.session.refreshToken)
    requires cfg.url != RefreshUrl
    requires fuel > 0
    ensures var r := Run(respond, w, cfg, fuel);
      r.out == OutOfFuel && |r.world.sent| == |w.sent| + 2 * fuel - 1 && r.world.hrefs == w.hrefs
    decreases fuel
  {
    var sentCfg := Intercept(cfg, w.store.session.token);
    assert respond(|w.sent|, sentCfg) == Reply(401, Object(map[]));
    var rt := w.store.session.refreshToken;
    var w1 := w.(sent := w.sent + [sentCfg]);
    var error := AxiosError(sentCfg, Some(Response(401, Object(map[]), sentCfg)));
    assert Run(respond, w, cfg, fuel) == OnRejected(respond, w1, error, fuel - 1);
    if fuel > 1 {
      var refreshCfg := Intercept(RefreshConfig(rt.value), w.store.session.token);
      var granted := map["accessToken" := Str(accessToken)];
      assert respond(|w1.sent|, refreshCfg) == Reply(200, Object(granted));
      RefreshGranted(respond, w1, error, fuel - 1);
      var token := AccessTokenOf(granted);
      var w2 := World(StoreState(Session(token, rt, w.store.session.user), true), w1.sent + [refreshCfg], w.hrefs);
      EndlessRefresh(respond, accessToken, w2, RetryConfig(sentCfg, token), fuel - 1);
      assert Run(respond, w, cfg, fuel) == Run(respond, w2, RetryConfig(sentCfg, token), fuel - 1);
      assert |w2.sent| == |w.sent| + 2;
    } else {
      assert OnRejected(respond, w1, error, 0) == Settled(OutOfFuel, w1);
    }
  }

  /** A backend that answers every request, the refresh call included, with 401. */
  ghost predicate RefusesEverything(respond: (nat, Config) -> Reply) {
    forall i: nat, c: Config :: respond(i, c) == Reply(401, Object(map[]))
  }

  /**
   * When the refresh call itself gets a 401, it re-enters the error handler,
   * which sees the same refresh token and refreshes again: the calls nest
   * until the depth bound, one request per level, with no logout, no
   * redirect and no store change.
   */
  lemma {:induction false} RefreshOfRefreshNests(respond: (nat, Config) -> Reply, w: World, cfg: Config, fuel: nat)
    requires RefusesEverything(respond)
    requires Truthy(w.store.session.refreshToken)
    ensures var r := Run(respond, w, cfg, fuel);
      r.out == OutOfFuel && |r.world.sent| == |w.sent| + fuel && r.world.hrefs == w.hrefs && r.world.store == w.store
    decreases fuel
  {
    if fuel > 0 {
      var sentCfg := Intercept(cfg, w.store.session.token);
      assert respond(|w.sent|, sentCfg) == Reply(401, Object(map[]));
      var w1 := w.(sent := w.sent + [sentCfg]);
      var error := AxiosError(sentCfg, Some(Response(401, Object(map[]), sentCfg)));
      assert Run(respond, w, cfg, fuel) == OnRejected(respond, w1, error, fuel - 1);
      RefreshOfRefreshNests(respond, w1, RefreshConfig(w.store.session.refreshToken.value), fuel - 1);
    }
  }

  /**
   * A 2xx refresh reply whose body is null: reading `r.data.accessToken`
   * throws inside the try, so the catch logs out, assigns /login and
   * rejects the original error; no retry is sent.
   */
  lemma NullRefreshBodyLogsOut(respond: (nat, Config) -> Reply, w: World, cfg: Config, fuel: nat)
    requires fuel > 1
    requires Truthy(w.store.session.refreshToken)
    requires var k := |w.sent|;
      var sentCfg := Intercept(cfg, w.store.session.token);
      var refreshCfg := Intercept(RefreshConfig(w.store.session.refreshToken.value), w.store.session.token);
      && respond(k, sentCfg).Reply? && respond(k, sentCfg).status == 401
      && respond(k + 1, refreshCfg).Reply? && IsSuccess(respond(k + 1, refreshCfg).status)
      && respond(k + 1, refreshCfg).data.Null?
    ensures var k := |w.sent|;
      var sentCfg := Intercept(cfg, w.store.session.token);
      var refreshCfg := Intercept(RefreshConfig(w.store.session.refreshToken.value), w.store.session.token);
      Run(respond, w, cfg, fuel) ==
        Settled(Rejected(AxiosError(sentCfg, Some(Response(401, respond(k, sentCfg).data, sentCfg)))),
                World(LoggedOut, w.sent + [sentCfg, refreshCfg], w.hrefs + [LoginPath]))
  {
    var sentCfg := Intercept(cfg, w.store.session.token);
    var w1 := w.(sent := w.sent + [sentCfg]);
    var error := AxiosError(sentCfg, Some(Response(401, respond(|w.sent|, sentCfg).data, sentCfg)));
    assert Run(respond, w, cfg, fuel) == OnRejected(respond, w1, error, fuel - 1);
    SuccessPassesThrough(respond, w1, RefreshConfig(w.store.session.refreshToken.value), fuel - 1);
  }

  /** The backend as seen by the client: it answers the i-th request by `respond`. */
  class Backend {
    const respond: (nat, Config) -> Reply
    var sent: seq<Config>

    constructor (respond: (nat, Config) -> Reply)
      ensures this.respond == respond && sent == []
    {
      this.respond := respond;
      sent := [];
    }

    method Send(cfg: Config) returns (reply: Reply)
      modifies this
      ensures sent == old(sent) + [cfg]
      ensures reply == respond(|old(sent)|, cfg)
    {
      reply := respond(|sent|, cfg);
      sent := sent + [cfg];
    }
  }

  /** The `api` instance: the store it reads and writes, the backend, and the hrefs assigned. */
  class ApiClient {
    const store: Store
    const backend: Backend
    var hrefs: seq<string>

    constructor (store: Store, backend: Backend)
      ensures this.store == store && this.backend == backend && hrefs == []
    {
      this.store := store;
      this.backend := backend;
      hrefs := [];
    }

    function WorldOf(): World
      reads this, store, backend
    {
      World(store.State(), backend.sent, hrefs)
    }

    /** `api.request(cfg)`: request interceptor, send, response interceptors. */
    method Request(cfg: Config, fuel: nat) returns (out: Outcome)
      modifies this, store, backend
      ensures Settled(out, WorldOf()) == Run(backend.respond, old(WorldOf()), cfg, fuel)
      decreases fuel, 0
    {
      if fuel == 0 {
        return OutOfFuel;
      }
      ghost var w0 := WorldOf();
      // request interceptor (lines 10-15)
      var sentCfg := cfg;
      var token := store.token;
      if Truthy(token) {
        sentCfg := sentCfg.(headers := sentCfg.headers[AuthorizationHeader := Bearer(token.value)]);
      }
      assert sentCfg == Intercept(cfg, w0.store.session.token);
      var reply := backend.Send(sentCfg);
      assert WorldOf() == w0.(sent := w0.sent + [sentCfg]);
      if reply.Reply? && IsSuccess(reply.status) {
        return Resolved(Response(reply.status, reply.data, sentCfg));
      }
      out := HandleError(AxiosError(sentCfg, if reply.Reply? then Some(Response(reply.status, reply.data, sentCfg)) else None), fuel - 1);
    }

    /** The response error interceptor (lines 22-39). */
    method HandleError(error: AxiosError, fuel: nat) returns (out: Outcome)
      modifies this, store, backend
      ensures Settled(out, WorldOf()) == OnRejected(backend.respond, old(WorldOf()), error, fuel)
      decreases fuel, 1
    {
      if !(error.response.Some? && error.response.value.status == 401) {
        return Rejected(error);
      }
      ghost var w0 := WorldOf();
      var refreshToken := store.refreshToken;
      if !Truthy(refreshToken) {
        store.Logout();
        hrefs := hrefs + [LoginPath];
        assert WorldOf() == LogoutAndRedirect(w0);
        return Rejected(error);
      }
      var r := Request(RefreshConfig(refreshToken.value), fuel);
      ghost var refresh := Run(backend.respond, w0, RefreshConfig(refreshToken.value), fuel);
      assert Settled(r, WorldOf()) == refresh;
      if r.OutOfFuel? {
        return OutOfFuel;
      }
      if r.Rejected? {
        store.Logout();
        hrefs := hrefs + [LoginPath];
        assert WorldOf() == LogoutAndRedirect(refresh.world);
        return Rejected(error);
      }
      if r.response.data.Null? {
        store.Logout();
        hrefs := hrefs + [LoginPath];
        assert WorldOf() == LogoutAndRedirect(refresh.world);
        return Rejected(error);
      }
      var accessToken := AccessTokenOf(r.response.data.fields);
      store.SetSession(SessionPatch(accessToken, refreshToken, Keep));
      assert WorldOf() == refresh.world.(store := Step(refresh.world.store, SetSessionCall(SessionPatch(accessToken, refreshToken, Keep))));
      var retry := error.config.(headers := error.config.headers[AuthorizationHeader := Bearer(Rendered(accessToken))]);
      assert retry == RetryConfig(error.config, accessToken);
      out := Request(retry, fuel);
    }
  }
}
