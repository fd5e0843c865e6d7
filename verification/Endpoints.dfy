/** What every endpoint promises its caller: which requests it grants, what it answers the others, and exactly which
    rows it leaves behind. Each handler runs alone here; `Handlers.HandleIsRun` makes it one of the interleavings. */
module Endpoints {
  import opened Domain
  import opened Storage
  import opened Session
  import opened Handlers
  import opened Text
  import opened Database
  import opened Renewal

  // ----- registration -----

  /** One to ten valid redirect URIs are registered, under an id nobody has; nothing else is ever stored. */
  lemma RegistrationExact(cfg: Config, t: Tables, uris: seq<string>, name: string, id: string, now: Time)
    ensures var (after, o) := Handle(cfg, t, Register(uris, name, id), now, []);
            var valid := 1 <= |uris| <= 10 && forall uri <- uris :: cfg.validRedirectURI(uri);
            && (!valid ==> after == t && o == Done(Response(400, "invalid_client_metadata")))
            && (valid && id in t.clients ==> after == t && o == Done(Response(500, "server_error")))
            && (valid && id !in t.clients ==>
                && o == Done(Response(201, ""))
                && after == t.(clients := t.clients[id := ClientRow(TrimSpace(name), uris, Unix(now))]))
  {
    if forall uri <- uris :: cfg.validRedirectURI(uri) {
      assert forall i :: 0 <= i < |uris| ==> uris[i] in uris;
    }
  }

  // ----- the authorization endpoint -----

  /** The client is known and the browser may be sent back to it. */
  predicate Redirectable(t: Tables, req: OAuthRequest) {
    && req.clientID != "" && req.clientID in t.clients
    && req.redirectURI != "" && req.redirectURI in t.clients[req.clientID].redirectURIs
  }

  /** A code is asked for, with a S256 challenge and for this resource or none. */
  predicate Supported(cfg: Config, req: OAuthRequest, responseType: string, challengeMethod: string) {
    && responseType == "code" && challengeMethod == "S256" && req.codeChallenge != ""
    && (req.resource == "" || req.resource == cfg.resource)
  }

  /** Nobody is redirected to a URI the client has not registered; a supported request is parked for ten minutes, and
      nothing else is stored. */
  lemma AuthorizeExact(cfg: Config, t: Tables, req: OAuthRequest, responseType: string, challengeMethod: string,
      now: Time, drawn: string, at: Time)
    ensures var (after, o) :=
              Handle(cfg, t, Authorize(req, responseType, challengeMethod), now, [(Secret(drawn), at)]);
            var supported := Supported(cfg, req, responseType, challengeMethod);
            && o.Done? && (o.response.status == 302 <==> Redirectable(t, req))
            && (o.response.status == 401 <==> req.clientID != "" && req.clientID !in t.clients)
            && (o == Done(Response(302, "")) <==> Redirectable(t, req) && supported && drawn !in t.logins)
            && (o == Done(Response(302, "invalid_request")) <==> Redirectable(t, req) && !supported)
            && if o != Done(Response(302, "")) then after == t
               else
                 && after == t.(logins := after.logins) && after.logins.Keys == t.logins.Keys + {drawn}
                 && (forall x :: x in t.logins ==> after.logins[x] == t.logins[x])
                 && after.logins[drawn].request == req && after.logins[drawn].expiresAt == Unix(at) + 600
  {
    FinishOne(cfg, t, Begin(cfg, t, Authorize(req, responseType, challengeMethod), now).1, Secret(drawn), at);
  }

  /** A reconnection link parks a request of nobody for ten minutes. */
  lemma ReconnectExact(cfg: Config, t: Tables, drawn: string, now: Time)
    ensures var (after, o) := Handle(cfg, t, Reconnect(drawn), now, []);
            && (drawn in t.logins ==> after == t && o == Done(Response(500, "")))
            && (drawn !in t.logins ==>
                && o == Done(Response(200, ""))
                && after == t.(logins :=
                     t.logins[drawn := LoginRow(OAuthRequest("", "", "", "", ""), Unix(now) + 600)]))
  {
  }

  // ----- the token endpoint -----

  predicate WellFormed(r: Request)
    requires r.CodeGrant?
  {
    r.code != "" && r.clientID != "" && 43 <= |r.verifier| <= 128
  }

  /** A stored code that has not expired, presented by its client with its redirect URI and the verifier that hashes to
      its challenge. */
  predicate GoodCode(cfg: Config, t: Tables, r: Request, now: Time)
    requires r.CodeGrant?
  {
    && r.code in t.codes && now < Instant(t.codes[r.code].expiresAt)
    && t.codes[r.code].clientID == r.clientID && t.codes[r.code].redirectURI == r.redirectURI
    && t.codes[r.code].codeChallenge == cfg.s256(r.verifier)
  }

  /** A new refresh token and nothing else: of this tenant and client, for the configured time, not revoked. */
  ghost predicate Added(cfg: Config, t: Tables, after: Tables, drawn: string, tenantID: string, clientID: string,
      at: Time) {
    && after == t.(refresh := after.refresh) && after.refresh.Keys == t.refresh.Keys + {cfg.s256(drawn)}
    && (forall h :: h in t.refresh && h != cfg.s256(drawn) ==> after.refresh[h] == t.refresh[h])
    && after.refresh[cfg.s256(drawn)] == RefreshRow(clientID, tenantID, Unix(at + cfg.refreshTokenTTL), false)
  }

  /** A pair is granted exactly for a good code in a well-formed request for this resource. Any well-formed request
      burns the code it presents, and none touches another one. */
  lemma CodeGrantExact(cfg: Config, t: Tables, r: Request, now: Time, drawn: string, at: Time)
    requires r.CodeGrant?
    ensures var (after, o) := Handle(cfg, t, r, now, [(Secret(drawn), at)]);
            var burnt := t.(codes := t.codes - {r.code});
            var good := WellFormed(r) && GoodCode(cfg, t, r, now);
            var here := r.resource == "" || r.resource == cfg.resource;
            && (!WellFormed(r) ==> after == t && o == Done(Response(400, "invalid_request")))
            && (WellFormed(r) && !good ==> after == burnt && o == Done(Response(400, "invalid_grant")))
            && (good && !here ==> after == burnt && o == Done(Response(400, "invalid_request")))
            && (good && here && cfg.s256(drawn) in t.refresh ==>
                after == burnt && o == Done(Response(500, "server_error")))
            && (good && here && cfg.s256(drawn) !in t.refresh ==>
                && o == Done(Response(200, ""))
                && Added(cfg, burnt, after, drawn, t.codes[r.code].tenantID, r.clientID, at))
  {
    var (t1, o) := Begin(cfg, t, r, now);
    FinishOne(cfg, t1, o, Secret(drawn), at);
    assert r.code !in t.codes ==> t.codes - {r.code} == t.codes;
  }

  /** The refresh token presented is stored, neither revoked nor expired. */
  predicate LiveToken(cfg: Config, t: Tables, token: string, now: Time) {
    var h := cfg.s256(token);
    h in t.refresh && !t.refresh[h].revoked && now < Instant(t.refresh[h].expiresAt)
  }

  /** A pair is granted exactly for a live token of the client that presents it, and for the token's own tenant. A live
      token is revoked whoever presents it; one that is not live changes nothing. */
  lemma RefreshGrantExact(cfg: Config, t: Tables, token: string, clientID: string, now: Time, drawn: string, at: Time)
    ensures var (after, o) := Handle(cfg, t, RefreshGrant(token, clientID), now, [(Secret(drawn), at)]);
            var named, live, h := token != "" && clientID != "", LiveToken(cfg, t, token, now), cfg.s256(token);
            && (!named ==> after == t && o == Done(Response(400, "invalid_request")))
            && (named && !live ==> after == t && o == Done(Response(400, "invalid_grant")))
            && (named && live ==>
                var row := t.refresh[h];
                var spent := RefreshRow(row.clientID, row.tenantID, row.expiresAt, true);
                var revoked := t.(refresh := t.refresh[h := spent]);
                && (row.clientID != clientID ==>
                    after == revoked && o == Done(Response(400, "unauthorized_client")))
                && (row.clientID == clientID && cfg.s256(drawn) in t.refresh ==>
                    after == revoked && o == Done(Response(500, "server_error")))
                && (row.clientID == clientID && cfg.s256(drawn) !in t.refresh ==>
                    o == Done(Response(200, "")) && Added(cfg, revoked, after, drawn, row.tenantID, clientID, at)))
  {
    var (t1, o) := Begin(cfg, t, RefreshGrant(token, clientID), now);
    FinishOne(cfg, t1, o, Secret(drawn), at);
    if cfg.s256(token) in t.refresh { FloorAgrees(now, t.refresh[cfg.s256(token)].expiresAt); }
  }

  /** Whatever other handlers do in between: a refresh grant answers at once, with an error, or it goes on to issue a
      pair, and it goes on exactly when the live token it presents is of its own client. */
  lemma RefreshGrantStarts(cfg: Config, s: Sys, pid: nat, token: string, clientID: string, now: Time)
    requires pid !in s.procs
    ensures var (after, answer) := Next(cfg, s, Start(pid, RefreshGrant(token, clientID), now));
            var h := cfg.s256(token);
            var granted := && token != "" && clientID != "" && LiveToken(cfg, s.t, token, now)
                           && s.t.refresh[h].clientID == clientID;
            && (granted <==> answer.None?) && (granted <==> pid in after.procs)
            && (granted ==> after.procs[pid] == Minting(s.t.refresh[h].tenantID, clientID))
            && (answer.Some? ==> answer.value.status == 400)
  {
    if cfg.s256(token) in s.t.refresh { FloorAgrees(now, s.t.refresh[cfg.s256(token)].expiresAt); }
  }

  // ----- the Meta callback -----

  /** What Meta's answer makes of a login before anything is stored: None when it goes on. */
  function LoginError(cfg: Config, req: OAuthRequest, answer: LoginAnswer): Option<Response> {
    match answer
    case Declined => Some(if req.clientID == "" then Response(200, "") else Response(302, "access_denied"))
    case NoCode => Some(Response(400, ""))
    case MetaFailed => Some(Response(502, ""))
    case User(m, _, _, _) =>
      if m == "" then Some(Response(502, "")) else if !cfg.allowed(m) then Some(Response(403, "")) else None
  }

  /** The login is saved under `at`: Meta's name and token for the user, when, and until when to the second, or 0 when
      Meta names no end. A user who was stored keeps id and creation second. */
  ghost predicate LoginSaved(t: Tables, after: Tables, at: string, user: LoginAnswer, now: Time)
    requires user.User?
  {
    && at in after.tenants
    && after.tenants[at] == TenantRow(user.metaUserID, user.name, user.longLived.token,
         if at in t.tenants then t.tenants[at].createdAt else Unix(now), Unix(now),
         if user.longLived.expiresIn <= 0 then 0 else Unix(now + user.longLived.expiresIn))
    && (forall i :: i != at ==>
        (i in after.tenants <==> i in t.tenants) && (i in t.tenants ==> after.tenants[i] == t.tenants[i]))
    && if exists i :: i in t.tenants && t.tenants[i].metaUserID == user.metaUserID
       then at in t.tenants && t.tenants[at].metaUserID == user.metaUserID else at == user.newID
  }

  /** The new id belongs to another user, and this one has none. */
  predicate Homeless(t: Tables, user: LoginAnswer)
    requires user.User?
  {
    user.newID in t.tenants && forall i :: i in t.tenants ==> t.tenants[i].metaUserID != user.metaUserID
  }

  /** A login that Meta or the whitelist refuses stores nothing. */
  lemma RefusedLogin(cfg: Config, t: Tables, req: OAuthRequest, answer: LoginAnswer, now: Time,
      pages: Option<seq<Page>>)
    requires LoginError(cfg, req, answer).Some?
    ensures Finish(cfg, t, Then(LoggingIn(req)), LoginInputs(answer, now, pages))
            == (t, Done(LoginError(cfg, req, answer).value))
  {
    FinishLogin(cfg, t, req, answer, now, pages);
  }

  /** The row a login stores, and the id it is stored under. */
  ghost predicate Prepared(t: Tables, user: LoginAnswer, now: Time, id: string, row: TenantRow)
    requires user.User?
  {
    && row == TenantRow(user.metaUserID, user.name, user.longLived.token,
         if id in t.tenants then t.tenants[id].createdAt else Unix(now), Unix(now),
         if user.longLived.expiresIn <= 0 then 0 else Unix(now + user.longLived.expiresIn))
    && if exists i :: i in t.tenants && t.tenants[i].metaUserID == user.metaUserID
       then id in t.tenants && t.tenants[id].metaUserID == user.metaUserID
       else id == user.newID && id !in t.tenants
  }

  lemma IdentifiedLogin(cfg: Config, t: Tables, req: OAuthRequest, user: LoginAnswer, now: Time)
      returns (id: string, row: TenantRow)
    requires LoginError(cfg, req, user).None? && !Homeless(t, user)
    ensures Identify(cfg, t, req, user, now) == Then(Upserting(req, id, row)) && Prepared(t, user, now, id, row)
  {
    var o := Identify(cfg, t, req, user, now);
    id, row := o.proc.id, o.proc.row;
  }

  lemma SavedLogin(t: Tables, req: OAuthRequest, user: LoginAnswer, now: Time, id: string, row: TenantRow)
      returns (saved: Tables)
    requires Storage.Sound(t) && user.User? && Prepared(t, user, now, id, row)
    ensures Upsert(t, req, id, row) == (saved, Then(Syncing(req, id)))
    ensures LoginSaved(t, saved, id, user, now) && saved == t.(tenants := saved.tenants)
  {
    var at := UpsertExact(t.tenants, id, row);
    assert at == id;
    saved := Upsert(t, req, id, row).0;
  }

  /** The user's row is saved first, and stays saved whatever becomes of the pages; the login goes on exactly when Meta
      lists pages without a repetition, which are then the user's pages. */
  lemma AcceptedLogin(cfg: Config, t: Tables, req: OAuthRequest, user: LoginAnswer, now: Time, pages: Option<seq<Page>>)
      returns (at: string)
    requires Storage.Sound(t) && LoginError(cfg, req, user).None? && !Homeless(t, user)
    ensures var (after, o) := Finish(cfg, t, Then(LoggingIn(req)), LoginInputs(user, now, pages));
            && LoginSaved(t, after, at, user, now)
            && after == t.(tenants := after.tenants, pages := after.pages)
            && if pages.Some? && DistinctPages(pages.value)
               then Storage.Replaced(t, after, at, pages.value)
                    && o == (if req.clientID == "" then Done(Response(200, "")) else Then(Issuing(req, at)))
               else after.pages == t.pages && o == Done(Response(502, ""))
  {
    FinishLogin(cfg, t, req, user, now, pages);
    var row: TenantRow;
    at, row := IdentifiedLogin(cfg, t, req, user, now);
    var saved := SavedLogin(t, req, user, now, at, row);
    if pages.Some? {
      ReplacePagesExact(saved, at, pages.value);
    }
  }

  lemma HomelessLogin(cfg: Config, t: Tables, req: OAuthRequest, user: LoginAnswer, now: Time,
      pages: Option<seq<Page>>)
    requires LoginError(cfg, req, user).None? && Homeless(t, user)
    ensures Finish(cfg, t, Then(LoggingIn(req)), LoginInputs(user, now, pages)) == (t, Done(Response(502, "")))
  {
    FinishLogin(cfg, t, req, user, now, pages);
  }

  /** The callback: the state it presents is burnt whatever happens next, and one that is not parked, or no more, is
      refused. A login that goes on ends a reconnection, or issues the client one code for five minutes that copies
      the parked request. */
  lemma CallbackExact(cfg: Config, t: Tables, state: string, now: Time, answer: LoginAnswer, loginAt: Time,
      pages: Option<seq<Page>>, drawn: string, issuedAt: Time)
    ensures var inputs := LoginInputs(answer, loginAt, pages);
            var (after, o) := Handle(cfg, t, Callback(state), now, inputs + [(Secret(drawn), issuedAt)]);
            var burnt := if state == "" then t else t.(logins := t.logins - {state});
            if state == "" || state !in t.logins || now >= Instant(t.logins[state].expiresAt)
            then after == burnt && o == Done(Response(400, ""))
            else
              var (t1, o1) := Finish(cfg, burnt, Then(LoggingIn(t.logins[state].request)), inputs);
              if !(o1.Then? && o1.proc.Issuing?) then after == t1 && o == o1
              else Issued(t1, after, o, o1.proc.req, o1.proc.id, drawn, issuedAt)
  {
    var inputs := LoginInputs(answer, loginAt, pages);
    var (t0, begun) := Begin(cfg, t, Callback(state), now);
    assert state !in t.logins ==> t.logins - {state} == t.logins;
    FinishAppend(cfg, t0, begun, inputs, [(Secret(drawn), issuedAt)]);
    var (t1, o1) := Finish(cfg, t0, begun, inputs);
    FinishOne(cfg, t1, o1, Secret(drawn), issuedAt);
    if begun.Then? { FinishLogin(cfg, t0, begun.proc.req, answer, loginAt, pages); }
  }

  /** The last call of a login: its code, unless it was drawn before. */
  ghost predicate Issued(t: Tables, after: Tables, o: Outcome, req: OAuthRequest, id: string, drawn: string, at: Time) {
    if drawn in t.codes then after == t && o == Done(Response(500, ""))
    else
      && o == Done(Response(302, ""))
      && after == t.(codes := t.codes[drawn :=
           CodeRow(req.clientID, id, req.redirectURI, req.codeChallenge, req.resource, Unix(at) + 300)])
  }

  // ----- deletion and synchronization -----

  /** Deleting a user removes every row of the user, leaves every row of anybody else as it was, and answers alike
      whether the user is known. */
  lemma DeletionExact(cfg: Config, t: Tables, metaUserID: string, now: Time, later: Time)
    requires Storage.Sound(t)
    ensures var (after, o) := Handle(cfg, t, DataDeletion(metaUserID), now, [(Nothing, later)]);
            && (metaUserID == "" ==> after == t && o == Done(Response(400, "")))
            && (metaUserID != "" ==>
                && o == Done(Response(200, "")) && UserGone(t, after, metaUserID)
                && forall id :: id in after.tenants ==> after.tenants[id].metaUserID != metaUserID)
  {
    var begun := Begin(cfg, t, DataDeletion(metaUserID), now).1;
    FinishOne(cfg, t, begun, Nothing, later);
    if begun.Then? { DeleteExact(t, begun.proc.id); }
  }

  /** The synchronization tool stores what Meta lists for a stored tenant, all of it or nothing. */
  lemma SyncExact(cfg: Config, t: Tables, id: string, now: Time, pages: Option<seq<Page>>, later: Time)
    ensures var (after, o) := Handle(cfg, t, SyncTool(id), now, [(Accounts(pages), later)]);
            if id in t.tenants && pages.Some? && DistinctPages(pages.value)
            then o == Done(Response(200, "")) && after == t.(pages := after.pages)
                 && Storage.Replaced(t, after, id, pages.value)
            else o == Done(Response(500, "")) && after == t
  {
    FinishOne(cfg, t, Begin(cfg, t, SyncTool(id), now).1, Accounts(pages), later);
    if pages.Some? { ReplacePagesExact(t, id, pages.value); }
  }

  // ----- the renewal sweep -----

  /** Meta's answers to the listed tenants, in order. */
  function Exchanges(todo: seq<(string, TenantRow)>, grants: Grants): seq<(Input, Time)> {
    if todo == [] then []
    else [(Exchange(GrantFor(todo[0].0, grants)), GrantedAt(todo[0].0, grants))] + Exchanges(todo[1..], grants)
  }

  /** The handler cut at its store calls does what the loop of the sweep does. */
  lemma {:induction false} SweepFinishes(cfg: Config, t: Tables, todo: seq<(string, TenantRow)>, grants: Grants)
    ensures Finish(cfg, t, Continue(todo), Exchanges(todo, grants))
            == (SweepAll(t, todo, grants), Done(Response(200, "")))
    decreases |todo|
  {
    if todo != [] {
      var id, inputs := todo[0].0, Exchanges(todo, grants);
      assert inputs[1..] == Exchanges(todo[1..], grants);
      SweepFinishes(cfg, Renew(t, id, todo[0].1, GrantFor(id, grants), GrantedAt(id, grants)), todo[1..], grants);
    }
  }

  predicate Once(order: seq<string>) { forall i, j :: 0 <= i < j < |order| ==> order[i] != order[j] }

  function DueIn(t: Tables, order: seq<string>, before: int, unchecked: int): set<string> {
    set id | id in t.tenants && id in order && Due(t.tenants[id], before, unchecked)
  }

  lemma CoversOneMore(tenants: map<string, TenantRow>, list: seq<(string, TenantRow)>, ids: set<string>, id: string)
    requires Covers(tenants, list, ids) && id !in ids && id in tenants
    ensures Covers(tenants, [(id, tenants[id])] + list, ids + {id})
  {
    var after := [(id, tenants[id])] + list;
    forall x | x in ids + {id} ensures exists i :: 0 <= i < |after| && after[i].0 == x {
      if x == id {
        assert after[0].0 == x;
      } else {
        var i :| 0 <= i < |list| && list[i].0 == x;
        assert after[i + 1].0 == x;
      }
    }
  }

  /** The listed due rows, each once. */
  lemma {:induction false} DueRowsCover(t: Tables, order: seq<string>, before: int, unchecked: int)
    requires Once(order)
    ensures Covers(t.tenants, DueRows(t, order, before, unchecked), DueIn(t, order, before, unchecked))
    decreases |order|
  {
    if order != [] {
      var first, rest := order[0], order[1..];
      assert order == [first] + rest && first !in rest;
      DueRowsCover(t, rest, before, unchecked);
      if first in t.tenants && Due(t.tenants[first], before, unchecked) {
        CoversOneMore(t.tenants, DueRows(t, rest, before, unchecked), DueIn(t, rest, before, unchecked), first);
        assert DueIn(t, order, before, unchecked) == DueIn(t, rest, before, unchecked) + {first};
      } else {
        assert DueIn(t, order, before, unchecked) == DueIn(t, rest, before, unchecked);
      }
    }
  }

  lemma SweepIsHandled(cfg: Config, t: Tables, order: seq<string>, window: Time, now: Time, grants: Grants,
      todo: seq<(string, TenantRow)>)
    requires todo == DueRows(t, order, Unix(now + window), Unix(now - 7 * DAY))
    ensures Handle(cfg, t, Sweep(order, window), now, Exchanges(todo, grants))
            == (SweepAll(t, todo, grants), Done(Response(200, "")))
  {
    SweepFinishes(cfg, t, todo, grants);
  }

  lemma SweptAlone(t: Tables, order: seq<string>, window: Time, now: Time, grants: Grants,
      todo: seq<(string, TenantRow)>)
    requires Storage.Sound(t) && Once(order) && forall id :: id in t.tenants ==> id in order
    requires todo == DueRows(t, order, Unix(now + window), Unix(now - 7 * DAY))
    ensures Renews(t, SweepAll(t, todo, grants), window, now, grants)
  {
    DueRowsCover(t, order, Unix(now + window), Unix(now - 7 * DAY));
    assert DueIn(t, order, Unix(now + window), Unix(now - 7 * DAY))
        == DueIDs(t.tenants, Unix(now + window), Unix(now - 7 * DAY));
    assert todo[..|todo|] == todo;
    SweepRenews(t, SweepAll(t, todo, grants), todo, |todo|, window, now, grants);
  }

  /** A sweep that runs undisturbed renews every tenant that needs it and is granted it, and leaves every other row
      alone, in whatever order the store lists them. */
  lemma SweepExact(cfg: Config, t: Tables, order: seq<string>, window: Time, now: Time, grants: Grants)
    requires Storage.Sound(t) && Once(order) && forall id :: id in t.tenants ==> id in order
    ensures var todo := DueRows(t, order, Unix(now + window), Unix(now - 7 * DAY));
            var (after, o) := Handle(cfg, t, Sweep(order, window), now, Exchanges(todo, grants));
            o == Done(Response(200, "")) && Renews(t, after, window, now, grants)
  {
    var todo := DueRows(t, order, Unix(now + window), Unix(now - 7 * DAY));
    SweptAlone(t, order, window, now, grants, todo);
    SweepIsHandled(cfg, t, order, window, now, grants, todo);
  }
}
