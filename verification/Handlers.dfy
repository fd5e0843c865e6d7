/** The handlers as they are written: methods on one store, each equal to its cut-up form run without interruption. */
module Handlers {
  import opened Domain
  import opened Storage
  import opened Session
  import opened Database
  import opened Text
  import Jwt

  /** A handler left alone: every later store call follows at once, until it answers. */
  ghost function Finish(cfg: Config, t: Tables, o: Outcome, inputs: seq<(Input, Time)>): (Tables, Outcome)
    decreases |inputs|
  {
    if o.Done? || inputs == [] then (t, o)
    else
      var (t', o') := Resume(cfg, t, o.proc, inputs[0].0, inputs[0].1);
      Finish(cfg, t', o', inputs[1..])
  }

  ghost function Handle(cfg: Config, t: Tables, r: Request, now: Time, inputs: seq<(Input, Time)>): (Tables, Outcome) {
    var (t', o) := Begin(cfg, t, r, now);
    Finish(cfg, t', o, inputs)
  }

  function Steps(pid: nat, inputs: seq<(Input, Time)>): seq<Event> {
    if inputs == [] then [] else [Step(pid, inputs[0].0, inputs[0].1)] + Steps(pid, inputs[1..])
  }

  lemma {:induction false} FinishIsRun(cfg: Config, t: Tables, procs: map<nat, Proc>, pid: nat, o: Outcome,
      inputs: seq<(Input, Time)>)
    requires pid !in procs && Finish(cfg, t, o, inputs).1.Done?
    ensures Run(cfg, Sys(t, Settle(procs, pid, o)), Steps(pid, inputs)) == Sys(Finish(cfg, t, o, inputs).0, procs)
    decreases |inputs|
  {
    var s := Sys(t, Settle(procs, pid, o));
    if o.Done? {
      assert Settle(procs, pid, o) == procs;
      StepsOfNobody(cfg, Sys(t, procs), pid, inputs);
    } else {
      var e := Step(pid, inputs[0].0, inputs[0].1);
      var (t', o') := Resume(cfg, t, o.proc, inputs[0].0, inputs[0].1);
      assert Steps(pid, inputs)[0] == e && Steps(pid, inputs)[1..] == Steps(pid, inputs[1..]);
      assert Next(cfg, s, e).0 == Sys(t', Settle(procs, pid, o'));
      FinishIsRun(cfg, t', procs, pid, o', inputs[1..]);
    }
  }

  lemma {:induction false} StepsOfNobody(cfg: Config, s: Sys, pid: nat, inputs: seq<(Input, Time)>)
    requires pid !in s.procs
    ensures Run(cfg, s, Steps(pid, inputs)) == s
    decreases |inputs|
  {
    if inputs != [] {
      assert Steps(pid, inputs)[1..] == Steps(pid, inputs[1..]);
      StepsOfNobody(cfg, s, pid, inputs[1..]);
    }
  }

  /** The two granularities agree: a handler that runs alone is one of the interleavings. */
  lemma HandleIsRun(cfg: Config, s: Sys, pid: nat, r: Request, now: Time, inputs: seq<(Input, Time)>)
    requires pid !in s.procs && Handle(cfg, s.t, r, now, inputs).1.Done?
    ensures Run(cfg, s, [Start(pid, r, now)] + Steps(pid, inputs)) == Sys(Handle(cfg, s.t, r, now, inputs).0, s.procs)
  {
    var e := Start(pid, r, now);
    var (t, o) := Begin(cfg, s.t, r, now);
    assert ([e] + Steps(pid, inputs))[1..] == Steps(pid, inputs);
    assert Next(cfg, s, e).0 == Sys(t, Settle(s.procs, pid, o));
    FinishIsRun(cfg, t, s.procs, pid, o, inputs);
  }

  lemma FinishOne(cfg: Config, t: Tables, o: Outcome, input: Input, now: Time)
    ensures Finish(cfg, t, o, [(input, now)]) == if o.Done? then (t, o) else Resume(cfg, t, o.proc, input, now)
  {
    var inputs := [(input, now)];
    assert inputs[1..] == [];
    if o.Then? {
      var (t', o') := Resume(cfg, t, o.proc, input, now);
      assert Finish(cfg, t', o', []) == (t', o');
    }
  }

  function LoginInputs(answer: LoginAnswer, now: Time, pages: Option<seq<Page>>): seq<(Input, Time)> {
    [(Login(answer), now), (Nothing, now), (Accounts(pages), now)]
  }

  lemma FinishLogin(cfg: Config, t: Tables, req: OAuthRequest, answer: LoginAnswer, now: Time, pages: Option<seq<Page>>)
    ensures Finish(cfg, t, Then(LoggingIn(req)), LoginInputs(answer, now, pages)) ==
            var o := Identify(cfg, t, req, answer, now);
            if o.Done? then (t, o)
            else
              var (t', o') := Upsert(t, req, o.proc.id, o.proc.row);
              if o'.Done? then (t', o') else Resume(cfg, t', o'.proc, Accounts(pages), now)
  {
    var inputs := LoginInputs(answer, now, pages);
    var rest := [(Nothing, now), (Accounts(pages), now)];
    assert inputs[1..] == rest && rest[1..] == [(Accounts(pages), now)];
    var o := Identify(cfg, t, req, answer, now);
    assert Finish(cfg, t, Then(LoggingIn(req)), inputs) == Finish(cfg, t, o, rest);
    if o.Then? {
      var (t', o') := Upsert(t, req, o.proc.id, o.proc.row);
      assert Finish(cfg, t, o, rest) == Finish(cfg, t', o', rest[1..]);
      FinishOne(cfg, t', o', Accounts(pages), now);
    }
  }

  lemma AnnouncedIsAlive(jwt: Jwt.Server, i: Issuance, m: Time)
    requires Jwt.Deadline(jwt, i.signedAt) != 0 && i.answeredAt <= i.signedAt + jwt.accessTokenTTL
    requires m <= i.answeredAt + Instant(Jwt.ExpiresIn(i.signedAt + jwt.accessTokenTTL, i.answeredAt) - 1)
    ensures Jwt.Alive(Unix(i.signedAt + jwt.accessTokenTTL), m)
  {
    Jwt.Announced(i.signedAt + jwt.accessTokenTTL, i.answeredAt);
    Jwt.AliveUntil(jwt, i.signedAt, m);
  }

  // ----- the authorization server -----

  /** The body of a successful token response. */
  datatype TokenResponse = TokenResponse(accessToken: string, expiresIn: int, refreshToken: string)

  /** What a token request draws and reads from the clock while it issues a pair. */
  datatype Issuance = Issuance(jti: string, drawn: string, signedAt: Time, storedAt: Time, answeredAt: Time)

  function Pair(jwt: Jwt.Server, tenantID: string, clientID: string, i: Issuance): TokenResponse {
    TokenResponse(Jwt.Mint(jwt, tenantID, clientID, i.signedAt, i.jti),
        Jwt.ExpiresIn(i.signedAt + jwt.accessTokenTTL, i.answeredAt), i.drawn)
  }

  /** A pair is answered exactly with status 200. Its refresh token is the one stored last, its access token names
      the tenant and the client of that row. */
  ghost predicate Answers(cfg: Config, jwt: Jwt.Server, t: Tables, r: Response, tokens: Option<TokenResponse>,
      i: Issuance) {
    && (r.status == 200 <==> tokens.Some?)
    && (tokens.Some? ==>
          var hash := cfg.s256(tokens.value.refreshToken);
          && hash in t.refresh && !t.refresh[hash].revoked
          && tokens.value == Pair(jwt, t.refresh[hash].tenantID, t.refresh[hash].clientID, i))
  }

  /** The access token of an answered pair is accepted for the tenant and the client of its refresh token, from its
      signature to one second before the announced lifetime is over. */
  lemma PairIsCoherent(cfg: Config, jwt: Jwt.Server, t: Tables, r: Response, tokens: Option<TokenResponse>,
      i: Issuance, m: Time)
    requires Jwt.Sound(jwt) && Answers(cfg, jwt, t, r, tokens, i) && tokens.Some?
    requires var row := t.refresh[cfg.s256(tokens.value.refreshToken)];
             row.tenantID != "" && Jwt.Deadline(jwt, i.signedAt) != 0
    requires i.signedAt <= i.answeredAt <= i.signedAt + jwt.accessTokenTTL
    requires m <= i.answeredAt + Instant(tokens.value.expiresIn - 1)
    ensures var row, claims :=
            t.refresh[cfg.s256(tokens.value.refreshToken)], Jwt.Verify(jwt, tokens.value.accessToken, m);
            claims.Some? && claims.value.subject == row.tenantID && claims.value.clientID == row.clientID
  {
    var row := t.refresh[cfg.s256(tokens.value.refreshToken)];
    AnnouncedIsAlive(jwt, i, m);
    Jwt.VerifiesWhileAlive(jwt, row.tenantID, row.clientID, i.signedAt, i.jti, m);
  }

  class AuthServer {
    const store: Store
    const cfg: Config
    const jwt: Jwt.Server

    constructor (store: Store, cfg: Config, jwt: Jwt.Server)
      ensures this.store == store && this.cfg == cfg && this.jwt == jwt
    {
      this.store := store;
      this.cfg := cfg;
      this.jwt := jwt;
    }

    method RegisterClient(redirectURIs: seq<string>, name: string, drawnID: string, now: Time) returns (r: Response)
      modifies store
      ensures (store.Snapshot(), Done(r)) ==
              Handle(cfg, old(store.Snapshot()), Register(redirectURIs, name, drawnID), now, [])
    {
      if redirectURIs == [] || |redirectURIs| > MAX_REDIRECT_URIS {
        return BadRequest(INVALID_CLIENT_META);
      }
      for i := 0 to |redirectURIs|
        invariant forall j :: 0 <= j < i ==> cfg.validRedirectURI(redirectURIs[j])
      {
        if !cfg.validRedirectURI(redirectURIs[i]) {
          return BadRequest(INVALID_CLIENT_META);
        }
      }
      var ok := store.RegisterClient(drawnID, ClientRow(TrimSpace(name), redirectURIs, Unix(now)));
      return if ok then Response(201, "") else Response(500, SERVER_ERROR);
    }

    /** Exact comparison with each registered URI. */
    method AllowsRedirectURI(client: ClientRow, uri: string) returns (ok: bool)
      ensures ok == (uri in client.redirectURIs)
    {
      for i := 0 to |client.redirectURIs|
        invariant forall j :: 0 <= j < i ==> client.redirectURIs[j] != uri
      {
        if client.redirectURIs[i] == uri {
          return true;
        }
      }
      return false;
    }

    method Authorize(req: OAuthRequest, responseType: string, challengeMethod: string, drawn: string, now: Time)
        returns (r: Response)
      modifies store
      ensures (store.Snapshot(), Done(r)) ==
              Handle(cfg, old(store.Snapshot()), Request.Authorize(req, responseType, challengeMethod), now,
                  [(Secret(drawn), now)])
    {
      if req.clientID == "" {
        return BadRequest(INVALID_REQUEST);
      }
      var client := store.ClientByID(req.clientID);
      if client.None? {
        return Response(401, INVALID_CLIENT);
      }
      var listed := AllowsRedirectURI(client.value, req.redirectURI);
      if req.redirectURI == "" || !listed {
        return BadRequest(INVALID_REQUEST);
      }
      if responseType != "code" {
        return Response(302, INVALID_REQUEST);
      }
      if req.codeChallenge == "" {
        return Response(302, INVALID_REQUEST);
      }
      if challengeMethod != "S256" {
        return Response(302, INVALID_REQUEST);
      }
      if req.resource != "" && req.resource != cfg.resource {
        return Response(302, INVALID_REQUEST);
      }
      FinishOne(cfg, store.Snapshot(), Then(Parking(req)), Secret(drawn), now);
      var ok := store.CreateLoginState(drawn, LoginRow(req, Unix(now + LOGIN_STATE_TTL)));
      return Response(302, if ok then "" else SERVER_ERROR);
    }

    method GrantAuthorizationCode(r: Request, now: Time, i: Issuance)
        returns (response: Response, tokens: Option<TokenResponse>)
      requires r.CodeGrant?
      modifies store
      ensures (store.Snapshot(), Done(response)) ==
              Handle(cfg, old(store.Snapshot()), r, now, [(Secret(i.drawn), i.storedAt)])
      ensures Answers(cfg, jwt, store.Snapshot(), response, tokens, i)
    {
      if r.code == "" || r.verifier == "" || r.clientID == "" {
        return BadRequest(INVALID_REQUEST), None;
      }
      if |r.verifier| < MIN_VERIFIER_LEN || |r.verifier| > MAX_VERIFIER_LEN {
        return BadRequest(INVALID_REQUEST), None;
      }
      var found := store.ConsumeAuthCode(r.code);
      if found.None? {
        return BadRequest(INVALID_GRANT), None;
      }
      var authCode := found.value;
      if !(now < Instant(authCode.expiresAt)) {
        return BadRequest(INVALID_GRANT), None;
      }
      if authCode.clientID != r.clientID {
        return BadRequest(INVALID_GRANT), None;
      }
      if r.redirectURI != authCode.redirectURI {
        return BadRequest(INVALID_GRANT), None;
      }
      if cfg.s256(r.verifier) != authCode.codeChallenge {
        return BadRequest(INVALID_GRANT), None;
      }
      if r.resource != "" && r.resource != cfg.resource {
        return BadRequest(INVALID_REQUEST), None;
      }
      FinishOne(cfg, store.Snapshot(), Then(Minting(authCode.tenantID, authCode.clientID)), Secret(i.drawn),
          i.storedAt);
      response, tokens := IssueTokens(authCode.tenantID, authCode.clientID, i);
    }

    method GrantRefreshToken(presented: string, clientID: string, now: Time, i: Issuance)
      returns (response: Response, tokens: Option<TokenResponse>)
      modifies store
      ensures (store.Snapshot(), Done(response)) ==
              Handle(cfg, old(store.Snapshot()), RefreshGrant(presented, clientID), now,
                  [(Secret(i.drawn), i.storedAt)])
      ensures Answers(cfg, jwt, store.Snapshot(), response, tokens, i)
    {
      if presented == "" || clientID == "" {
        return BadRequest(INVALID_REQUEST), None;
      }
      var stored := store.RotateRefreshToken(cfg.s256(presented), now);
      if stored.None? {
        return BadRequest(INVALID_GRANT), None;
      }
      if stored.value.clientID != clientID {
        return BadRequest(UNAUTHORIZED_CLIENT), None;
      }
      FinishOne(cfg, store.Snapshot(), Then(Minting(stored.value.tenantID, stored.value.clientID)), Secret(i.drawn),
          i.storedAt);
      response, tokens := IssueTokens(stored.value.tenantID, stored.value.clientID, i);
    }

    /** The access token is signed first, then the refresh token is stored, then both are answered. */
    method IssueTokens(tenantID: string, clientID: string, i: Issuance)
        returns (r: Response, tokens: Option<TokenResponse>)
      modifies store`refreshTokens
      ensures (store.Snapshot(), Done(r)) ==
              Session.Mint(cfg, old(store.Snapshot()), tenantID, clientID, i.drawn, i.storedAt)
      ensures Answers(cfg, jwt, store.Snapshot(), r, tokens, i)
    {
      var accessToken := Jwt.Mint(jwt, tenantID, clientID, i.signedAt, i.jti);
      var expiry := i.signedAt + jwt.accessTokenTTL;
      var ok := store.CreateRefreshToken(cfg.s256(i.drawn),
          RefreshRow(clientID, tenantID, Unix(i.storedAt + cfg.refreshTokenTTL), false));
      if !ok { return Response(500, SERVER_ERROR), None; }
      return Response(200, ""), Some(TokenResponse(accessToken, Jwt.ExpiresIn(expiry, i.answeredAt), i.drawn));
    }

    method IssueAuthCode(req: OAuthRequest, tenantID: string, drawn: string, now: Time) returns (r: Response)
      modifies store`codes
      ensures (store.Snapshot(), Done(r)) == Issue(old(store.Snapshot()), req, tenantID, drawn, now)
    {
      var row := CodeRow(req.clientID, tenantID, req.redirectURI, req.codeChallenge, req.resource,
          Unix(now + AUTH_CODE_TTL));
      var ok := store.CreateAuthCode(drawn, row);
      return if ok then Response(302, "") else Response(500, "");
    }
  }

  // ----- login, deletion, reconnection -----

  /** Everything of this user is gone and every row of anybody else is as it was; nothing changes when the user is
      not stored. */
  ghost predicate UserGone(t: Tables, after: Tables, metaUserID: string) {
    || ((forall id :: id in t.tenants ==> t.tenants[id].metaUserID != metaUserID) && after == t)
    || exists id :: id in t.tenants && t.tenants[id].metaUserID == metaUserID && OnlyGone(t, after, id)
  }

  datatype LoginResult = LoggedIn(tenantID: string) | LoginRefused(status: nat)

  class LoginService {
    const store: Store
    const cfg: Config

    constructor (store: Store, cfg: Config)
      ensures this.store == store && this.cfg == cfg
    {
      this.store := store;
      this.cfg := cfg;
    }

    method ConsumeState(state: string, now: Time) returns (r: Option<OAuthRequest>)
      modifies store`loginStates
      ensures var (after, row) := ConsumeLogin(old(store.Snapshot()), state);
              && store.Snapshot() == after
              && r == if row.Some? && now < Instant(row.value.expiresAt) then Some(row.value.request) else None
    {
      var login := store.ConsumeLoginState(state);
      if login.None? {
        return None;
      }
      if !(now < Instant(login.value.expiresAt)) {
        return None;
      }
      return Some(login.value.request);
    }

    /** The login itself: identify the user, write the tenant, synchronize the pages. */
    method Complete(answer: LoginAnswer, now: Time, pages: Option<seq<Page>>) returns (r: LoginResult)
      requires answer.MetaFailed? || answer.User?
      requires store.Valid()
      modifies store
      ensures store.Valid()
      ensures forall req: OAuthRequest ::
                (store.Snapshot(), if r.LoggedIn? then
                    (if IsReconnect(req) then Done(Response(200, "")) else Then(Issuing(req, r.tenantID)))
                                   else Done(Response(r.status, "")))
                == Finish(cfg, old(store.Snapshot()), Then(LoggingIn(req)), LoginInputs(answer, now, pages))
    {
      ghost var t0 := store.Snapshot();
      forall req: OAuthRequest { FinishLogin(cfg, t0, req, answer, now, pages); }
      if answer.MetaFailed? || answer.metaUserID == "" {
        return LoginRefused(502);
      }
      if !cfg.allowed(answer.metaUserID) {
        return LoginRefused(403);
      }
      var row := TenantRow(answer.metaUserID, answer.name, answer.longLived.token, Unix(now), Unix(now),
          DeadlineFrom(now, answer.longLived.expiresIn));
      var id := answer.newID;
      var existing := store.TenantByMetaUserID(answer.metaUserID);
      if existing.Some? {
        id := existing.value.0;
        row := row.(createdAt := existing.value.1.createdAt);
      }
      assert forall req: OAuthRequest :: Identify(cfg, t0, req, answer, now) == Then(Upserting(req, id, row));
      var saved := store.UpsertTenant(id, row);
      if !saved {
        assert forall req: OAuthRequest :: Upsert(t0, req, id, row) == (t0, Done(Response(502, "")));
        return LoginRefused(502);
      }
      ghost var t1 := store.Snapshot();
      assert forall req: OAuthRequest :: Upsert(t0, req, id, row) == (t1, Then(Syncing(req, id)));
      if pages.None? {
        return LoginRefused(502);
      }
      var synced := store.ReplacePages(id, pages.value);
      if !synced {
        return LoginRefused(502);
      }
      return LoggedIn(id);
    }

    /** Nothing happens for a user who is not stored. Behind the callback, which refuses an empty id, this is the
        whole deletion. */
    method DeleteByMetaUserID(metaUserID: string, now: Time)
      requires store.Valid()
      modifies store
      ensures store.Valid()
      ensures store.Snapshot() == match TenantOf(old(store.tenants), metaUserID)
                                  case None => old(store.Snapshot())
                                  case Some(id) => DeleteTenant(old(store.Snapshot()), id)
      ensures UserGone(old(store.Snapshot()), store.Snapshot(), metaUserID)
      ensures metaUserID != "" ==>
                (store.Snapshot(), Done(Response(200, ""))) ==
                Handle(cfg, old(store.Snapshot()), DataDeletion(metaUserID), now, [(Nothing, now)])
    {
      var tenant := store.TenantByMetaUserID(metaUserID);
      if tenant.Some? {
        FinishOne(cfg, store.Snapshot(), Then(Deleting(tenant.value.0)), Nothing, now);
        store.DeleteTenant(tenant.value.0);
        assert old(store.Snapshot()).tenants[tenant.value.0].metaUserID == metaUserID;
      }
    }

    method SyncPages(tenantID: string, now: Time, pages: Option<seq<Page>>) returns (r: Response)
      requires store.Valid()
      modifies store
      ensures store.Valid()
      ensures (store.Snapshot(), Done(r)) ==
              Handle(cfg, old(store.Snapshot()), SyncTool(tenantID), now, [(Accounts(pages), now)])
    {
      FinishOne(cfg, store.Snapshot(), Then(SyncingTool(tenantID)), Accounts(pages), now);
      if tenantID !in store.tenants || pages.None? {
        return Response(500, "");
      }
      var ok := store.ReplacePages(tenantID, pages.value);
      return Response(if ok then 200 else 500, "");
    }

    method ReconnectURL(drawn: string, now: Time) returns (r: Response)
      modifies store`loginStates
      ensures (store.Snapshot(), Done(r)) == Handle(cfg, old(store.Snapshot()), Reconnect(drawn), now, [])
    {
      var ok := store.CreateLoginState(drawn, LoginRow(RECONNECT, Unix(now + LOGIN_STATE_TTL)));
      return Response(if ok then 200 else 500, "");
    }
  }

  // ----- the Meta callback -----

  class MetaHandlers {
    const login: LoginService
    const issuer: AuthServer

    constructor (login: LoginService, issuer: AuthServer)
      ensures this.login == login && this.issuer == issuer
    {
      this.login := login;
      this.issuer := issuer;
    }

    /** State consumed, login completed, code issued, each with its own clock reading. */
    method Callback(state: string, now: Time, answer: LoginAnswer, loginAt: Time, pages: Option<seq<Page>>,
        drawn: string, issuedAt: Time)
      returns (r: Response)
      requires issuer.store == login.store && issuer.cfg == login.cfg && login.store.Valid()
      modifies login.store
      ensures login.store.Valid()
      ensures (login.store.Snapshot(), Done(r)) ==
              Handle(login.cfg, old(login.store.Snapshot()), Request.Callback(state), now,
                  LoginInputs(answer, loginAt, pages) + [(Secret(drawn), issuedAt)])
    {
      if state == "" {
        return BadRequest("");
      }
      var parked := login.ConsumeState(state, now);
      if parked.None? {
        return BadRequest("");
      }
      ghost var t1 := login.store.Snapshot();
      FinishAppend(login.cfg, t1, Then(LoggingIn(parked.value)), LoginInputs(answer, loginAt, pages),
          [(Secret(drawn), issuedAt)]);
      FinishLogin(login.cfg, t1, parked.value, answer, loginAt, pages);
      var isReconnect := IsReconnect(parked.value);
      if answer.Declined? {
        return if isReconnect then Response(200, "") else Response(302, ACCESS_DENIED);
      }
      if answer.NoCode? {
        return BadRequest("");
      }
      var result := login.Complete(answer, loginAt, pages);
      if result.LoginRefused? {
        return Response(result.status, "");
      }
      if isReconnect {
        return Response(200, "");
      }
      FinishOne(login.cfg, login.store.Snapshot(), Then(Issuing(parked.value, result.tenantID)), Secret(drawn),
          issuedAt);
      r := issuer.IssueAuthCode(parked.value, result.tenantID, drawn, issuedAt);
    }
  }

  lemma {:induction false} FinishAppend(cfg: Config, t: Tables, o: Outcome, a: seq<(Input, Time)>,
      b: seq<(Input, Time)>)
    ensures Finish(cfg, t, o, a + b) == Finish(cfg, Finish(cfg, t, o, a).0, Finish(cfg, t, o, a).1, b)
    decreases |a|
  {
    if a == [] {
      assert a + b == b;
    } else if !o.Done? {
      var (t', o') := Resume(cfg, t, o.proc, a[0].0, a[0].1);
      assert (a + b)[0] == a[0] && (a + b)[1..] == a[1..] + b;
      FinishAppend(cfg, t', o', a[1..], b);
    }
  }
}
