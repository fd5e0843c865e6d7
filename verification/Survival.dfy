/** Nothing is lost by accident: exactly which events take a row away, in every interleaving. */
module Survival {
  import opened Domain
  import opened Storage
  import opened Session

  /** The last call of a deletion of this tenant. */
  predicate Deletes(s: Sys, e: Event, id: string) {
    e.Step? && e.input.Nothing? && e.pid in s.procs && s.procs[e.pid] == Deleting(id)
  }

  // ----- codes, login states, refresh tokens -----

  /** The code is presented in a well-formed request, or expired at a purge, or its tenant is deleted. */
  predicate TakesCode(s: Sys, e: Event, c: string)
    requires c in s.t.codes
  {
    || Deletes(s, e, s.t.codes[c].tenantID)
    || (e.PurgeCodesAt? && Instant(s.t.codes[c].expiresAt) <= e.now)
    || (e.Start? && e.pid !in s.procs && e.request.CodeGrant? && e.request.code == c && c != ""
        && e.request.clientID != "" && 43 <= |e.request.verifier| <= 128)
  }

  /** The state is presented, or expired at a purge. */
  predicate TakesState(s: Sys, e: Event, x: string)
    requires x in s.t.logins
  {
    || (e.PurgeLoginsAt? && Instant(s.t.logins[x].expiresAt) <= e.now)
    || (e.Start? && e.pid !in s.procs && e.request == Callback(x) && x != "")
  }

  /** The token is presented while it is live, or expired at a purge, or its tenant is deleted. */
  predicate TakesToken(cfg: Config, s: Sys, e: Event, h: string)
    requires h in s.t.refresh
  {
    || Deletes(s, e, s.t.refresh[h].tenantID)
    || (e.PurgeRefreshAt? && Instant(s.t.refresh[h].expiresAt) <= e.now)
    || (e.Start? && e.pid !in s.procs && e.request.RefreshGrant? && cfg.s256(e.request.token) == h
        && e.request.token != "" && e.request.grantClientID != ""
        && !s.t.refresh[h].revoked && e.now < Instant(s.t.refresh[h].expiresAt))
  }

  /** A first call works on one table, that of its request. */
  lemma BeginElsewhere(cfg: Config, t: Tables, r: Request, now: Time)
    ensures var after := Begin(cfg, t, r, now).0;
            && after.tenants == t.tenants && after.pages == t.pages
            && (!r.CodeGrant? ==> after.codes == t.codes) && (!r.RefreshGrant? ==> after.refresh == t.refresh)
            && (!r.Callback? && !r.Reconnect? ==> after.logins == t.logins)
            && (!r.Register? ==> after.clients == t.clients)
  {
    match r
    case Register(uris, name, id) => RegistrationElsewhere(cfg, t, uris, name, id, now);
    case CodeGrant(_, _, _, _, _) => CodeGrantElsewhere(cfg, t, r, now);
    case RefreshGrant(token, clientID) => RefreshGrantElsewhere(cfg, t, token, clientID, now);
    case Callback(state) => CallbackElsewhere(t, state, now);
    case Reconnect(_) =>
    case Authorize(_, _, _) =>
    case DataDeletion(_) =>
    case SyncTool(_) =>
    case Sweep(_, _) =>
  }

  lemma RegistrationElsewhere(cfg: Config, t: Tables, uris: seq<string>, name: string, id: string, now: Time)
    ensures var after := BeginRegister(cfg, t, uris, name, id, now).0; after == t.(clients := after.clients)
  {
  }

  lemma CodeGrantElsewhere(cfg: Config, t: Tables, r: Request, now: Time)
    requires r.CodeGrant?
    ensures var after := BeginCodeGrant(cfg, t, r, now).0; after == t.(codes := after.codes)
    ensures BeginCodeGrant(cfg, t, r, now).0.codes
            == if r.code != "" && r.clientID != "" && 43 <= |r.verifier| <= 128 then t.codes - {r.code} else t.codes
  {
    assert r.code !in t.codes ==> t.codes - {r.code} == t.codes;
  }

  lemma RefreshGrantElsewhere(cfg: Config, t: Tables, token: string, clientID: string, now: Time)
    ensures var after := BeginRefreshGrant(cfg, t, token, clientID, now).0; after == t.(refresh := after.refresh)
    ensures var h := cfg.s256(token);
            BeginRefreshGrant(cfg, t, token, clientID, now).0.refresh
            == if token != "" && clientID != "" && h in t.refresh && !t.refresh[h].revoked
                  && now < Instant(t.refresh[h].expiresAt)
               then t.refresh[h := t.refresh[h].(revoked := true)] else t.refresh
  {
    if cfg.s256(token) in t.refresh { FloorAgrees(now, t.refresh[cfg.s256(token)].expiresAt); }
  }

  lemma CallbackElsewhere(t: Tables, state: string, now: Time)
    ensures var after := BeginCallback(t, state, now).0; after == t.(logins := after.logins)
    ensures BeginCallback(t, state, now).0.logins == if state == "" then t.logins else t.logins - {state}
  {
    assert state !in t.logins ==> t.logins - {state} == t.logins;
  }

  lemma BeginTakesCode(cfg: Config, s: Sys, e: Event, c: string)
    requires Enabled(s, e) && e.Start? && c in s.t.codes
    ensures var t := Begin(cfg, s.t, e.request, e.now).0;
            (c in t.codes <==> !TakesCode(s, e, c)) && (c in t.codes ==> t.codes[c] == s.t.codes[c])
  {
    if e.request.CodeGrant? {
      CodeGrantElsewhere(cfg, s.t, e.request, e.now);
    } else {
      BeginElsewhere(cfg, s.t, e.request, e.now);
    }
  }

  lemma BeginTakesState(cfg: Config, s: Sys, e: Event, x: string)
    requires Enabled(s, e) && e.Start? && x in s.t.logins
    ensures var t := Begin(cfg, s.t, e.request, e.now).0;
            (x in t.logins <==> !TakesState(s, e, x)) && (x in t.logins ==> t.logins[x] == s.t.logins[x])
  {
    if e.request.Callback? {
      CallbackElsewhere(s.t, e.request.state, e.now);
    } else if !e.request.Reconnect? {
      BeginElsewhere(cfg, s.t, e.request, e.now);
    }
  }

  lemma BeginTakesToken(cfg: Config, s: Sys, e: Event, h: string)
    requires Enabled(s, e) && e.Start? && h in s.t.refresh
    ensures var t, row := Begin(cfg, s.t, e.request, e.now).0, s.t.refresh[h];
            h in t.refresh && t.refresh[h] == row.(revoked := row.revoked || TakesToken(cfg, s, e, h))
  {
    if e.request.RefreshGrant? {
      RefreshGrantElsewhere(cfg, s.t, e.request.token, e.request.grantClientID, e.now);
    } else {
      BeginElsewhere(cfg, s.t, e.request, e.now);
    }
  }

  lemma BeginTakesNoClient(cfg: Config, s: Sys, e: Event, c: string)
    requires Enabled(s, e) && e.Start? && c in s.t.clients
    ensures var t := Begin(cfg, s.t, e.request, e.now).0; c in t.clients && t.clients[c] == s.t.clients[c]
  {
    if !e.request.Register? { BeginElsewhere(cfg, s.t, e.request, e.now); }
  }

  /** A later call takes credentials away only by deleting their tenant, and never alters one. */
  lemma ResumeTakes(cfg: Config, s: Sys, e: Event)
    requires Enabled(s, e) && e.Step?
    ensures var t := Resume(cfg, s.t, s.procs[e.pid], e.input, e.now).0;
            && (forall c :: c in s.t.codes ==>
                (c in t.codes <==> !TakesCode(s, e, c)) && (c in t.codes ==> t.codes[c] == s.t.codes[c]))
            && (forall x :: x in s.t.logins ==> x in t.logins && t.logins[x] == s.t.logins[x])
            && (forall h :: h in s.t.refresh ==>
                (h in t.refresh <==> !TakesToken(cfg, s, e, h)) && (h in t.refresh ==> t.refresh[h] == s.t.refresh[h]))
            && t.clients == s.t.clients
  {
    var p := s.procs[e.pid];
    if p.Deleting? { DeleteExact(s.t, p.id); }
    else if p.Syncing? || p.SyncingTool? || p.Upserting? || p.Sweeping? || p.LoggingIn? {
      OtherTables(cfg, s.t, p, e.input, e.now);
    }
  }

  lemma OtherTables(cfg: Config, t: Tables, p: Proc, input: Input, now: Time)
    requires p.Syncing? || p.SyncingTool? || p.Upserting? || p.Sweeping? || p.LoggingIn?
    ensures var after := Resume(cfg, t, p, input, now).0;
            && after.codes == t.codes && after.logins == t.logins && after.refresh == t.refresh
            && after.clients == t.clients
  {
  }

  lemma PurgeTakes(cfg: Config, s: Sys, e: Event)
    requires IsPurge(e)
    ensures var t := Purge(s.t, e);
            && t.clients == s.t.clients && t.tenants == s.t.tenants && t.pages == s.t.pages
            && (forall c :: c in s.t.codes ==>
                (c in t.codes <==> !TakesCode(s, e, c)) && (c in t.codes ==> t.codes[c] == s.t.codes[c]))
            && (forall x :: x in s.t.logins ==>
                (x in t.logins <==> !TakesState(s, e, x)) && (x in t.logins ==> t.logins[x] == s.t.logins[x]))
            && (forall h :: h in s.t.refresh ==>
                (h in t.refresh <==> !TakesToken(cfg, s, e, h)) && (h in t.refresh ==> t.refresh[h] == s.t.refresh[h]))
  {
    forall sec ensures e.now < Instant(sec) <==> Unix(e.now) < sec { FloorAgrees(e.now, sec); }
  }

  /** A code is there after an event, as it was, unless it was presented, purged when expired, or deleted with its
      tenant; and in these cases it is gone. */
  lemma CodeStays(cfg: Config, s: Sys, e: Event, c: string)
    requires c in s.t.codes
    ensures var t := Next(cfg, s, e).0.t;
            (c in t.codes <==> !TakesCode(s, e, c)) && (c in t.codes ==> t.codes[c] == s.t.codes[c])
  {
    if Enabled(s, e) {
      if e.Start? { BeginTakesCode(cfg, s, e, c); } else if e.Step? { ResumeTakes(cfg, s, e); }
      else if IsPurge(e) { PurgeTakes(cfg, s, e); }
    }
  }

  /** The same for a parked login. */
  lemma StateStays(cfg: Config, s: Sys, e: Event, x: string)
    requires x in s.t.logins
    ensures var t := Next(cfg, s, e).0.t;
            (x in t.logins <==> !TakesState(s, e, x)) && (x in t.logins ==> t.logins[x] == s.t.logins[x])
  {
    if Enabled(s, e) {
      if e.Start? { BeginTakesState(cfg, s, e, x); } else if e.Step? { ResumeTakes(cfg, s, e); }
      else if IsPurge(e) { PurgeTakes(cfg, s, e); }
    }
  }

  /** The same for a refresh token, which a grant revokes and does not remove. */
  lemma TokenStays(cfg: Config, s: Sys, e: Event, h: string)
    requires h in s.t.refresh
    ensures var t, row := Next(cfg, s, e).0.t, s.t.refresh[h];
            && (h in t.refresh && t.refresh[h] == row <==> !TakesToken(cfg, s, e, h))
            && (h in t.refresh ==> t.refresh[h] == row || t.refresh[h] == row.(revoked := true))
  {
    if Enabled(s, e) {
      if e.Start? { BeginTakesToken(cfg, s, e, h); } else if e.Step? { ResumeTakes(cfg, s, e); }
      else if IsPurge(e) { PurgeTakes(cfg, s, e); }
    }
  }

  /** A registered client stays registered as it is. */
  lemma ClientStays(cfg: Config, s: Sys, e: Event, c: string)
    requires c in s.t.clients
    ensures c in Next(cfg, s, e).0.t.clients && Next(cfg, s, e).0.t.clients[c] == s.t.clients[c]
  {
    if Enabled(s, e) {
      if e.Start? { BeginTakesNoClient(cfg, s, e, c); } else if e.Step? { ResumeTakes(cfg, s, e); }
      else if IsPurge(e) { PurgeTakes(cfg, s, e); }
    }
  }

  // ----- tenants and pages -----

  /** The handler is about to write the row of this user: at the end of a login, or in a sweep. */
  predicate WritesUser(p: Proc, metaUserID: string) {
    || (p.Upserting? && p.row.metaUserID == metaUserID)
    || (p.Sweeping? && p.todo != [] && p.todo[0].1.metaUserID == metaUserID)
  }

  /** A tenant goes only with its deletion, and then always. Until then user and creation second are fixed, and only a
      login or a renewal of this very user changes the rest. */
  lemma TenantStays(cfg: Config, s: Sys, e: Event, id: string)
    requires Sound(s.t) && id in s.t.tenants
    ensures var t, row := Next(cfg, s, e).0.t, s.t.tenants[id];
            && (id in t.tenants <==> !Deletes(s, e, id))
            && (id in t.tenants ==>
                t.tenants[id].metaUserID == row.metaUserID && t.tenants[id].createdAt == row.createdAt)
            && (id in t.tenants && t.tenants[id] != row ==>
                e.Step? && e.pid in s.procs && WritesUser(s.procs[e.pid], row.metaUserID))
  {
    if Enabled(s, e) && e.Step? {
      var p := s.procs[e.pid];
      var edit := StepPerforms(cfg, s.t, p, e.input, e.now);
      if edit.Upserted? { var at := UpsertExact(s.t.tenants, edit.id, edit.row); }
      if Deletes(s, e, id) { DeleteExact(s.t, id); }
    } else if Enabled(s, e) && e.Start? {
      BeginElsewhere(cfg, s.t, e.request, e.now);
    }
  }

  /** The handler is about to write the pages of this tenant, or to delete it. */
  predicate WritesPages(p: Proc, id: string) {
    (p.Syncing? && p.id == id) || p == SyncingTool(id) || p == Deleting(id)
  }

  /** A page comes, goes or changes only with a synchronization or the deletion of its own tenant. */
  lemma PageStays(cfg: Config, s: Sys, e: Event, k: PageKey)
    requires !(e.Step? && e.pid in s.procs && WritesPages(s.procs[e.pid], k.tenantID))
    ensures var t := Next(cfg, s, e).0.t;
            (k in t.pages <==> k in s.t.pages) && (k in t.pages ==> t.pages[k] == s.t.pages[k])
  {
    if Enabled(s, e) && e.Step? {
      var edit := StepPerforms(cfg, s.t, s.procs[e.pid], e.input, e.now);
      if edit.Replaced? { InsertPagesMeaning(s.t, PagesWithout(s.t.pages, edit.id), edit.id, edit.list); }
    } else if Enabled(s, e) && e.Start? {
      BeginElsewhere(cfg, s.t, e.request, e.now);
    }
  }

  // ----- a session lasts -----

  /** At no event of the run is the token taken away. */
  ghost predicate Undisturbed(cfg: Config, s: Sys, events: seq<Event>, h: string)
    decreases |events|
  {
    events != [] ==>
      && h in s.t.refresh && !TakesToken(cfg, s, events[0], h)
      && Undisturbed(cfg, Next(cfg, s, events[0]).0, events[1..], h)
  }

  lemma {:induction false} TokenLasts(cfg: Config, s: Sys, events: seq<Event>, h: string)
    requires h in s.t.refresh && Undisturbed(cfg, s, events, h)
    ensures h in Run(cfg, s, events).t.refresh && Run(cfg, s, events).t.refresh[h] == s.t.refresh[h]
    decreases |events|
  {
    if events != [] {
      TokenStays(cfg, s, events[0], h);
      TokenLasts(cfg, Next(cfg, s, events[0]).0, events[1..], h);
    }
  }

  /** Whatever happens to everybody else, for however long: a client that presents its live token in time is granted
      the next one for the same tenant, as long as nobody presented the token before and its tenant was not deleted. */
  lemma SessionIsHonoured(cfg: Config, s: Sys, events: seq<Event>, pid: nat, token: string, now: Time, drawn: string,
      at: Time)
    requires var h := cfg.s256(token);
             && token != "" && h in s.t.refresh && !s.t.refresh[h].revoked && s.t.refresh[h].clientID != ""
             && now < Instant(s.t.refresh[h].expiresAt) && Undisturbed(cfg, s, events, h)
    requires pid !in Run(cfg, s, events).procs && cfg.s256(drawn) !in Run(cfg, s, events).t.refresh
    ensures var row, later := s.t.refresh[cfg.s256(token)], Run(cfg, s, events);
            var started := Next(cfg, later, Start(pid, RefreshGrant(token, row.clientID), now)).0;
            var (ended, answer) := Next(cfg, started, Step(pid, Secret(drawn), at));
            && answer == Some(Response(200, ""))
            && cfg.s256(drawn) in ended.t.refresh
            && ended.t.refresh[cfg.s256(drawn)]
               == RefreshRow(row.clientID, row.tenantID, Unix(at + cfg.refreshTokenTTL), false)
  {
    TokenLasts(cfg, s, events, cfg.s256(token));
    FloorAgrees(now, s.t.refresh[cfg.s256(token)].expiresAt);
  }
}
