/** Which requests stand behind every handler and every row, over every run from an empty database. */
module Origins {
  import opened Domain
  import opened Storage
  import opened Session
  import opened Survival

  // ----- the requests of a run -----

  /** Somebody sent this authorization request, for a code and with an S256 challenge. */
  predicate Asked(past: seq<Event>, req: OAuthRequest) {
    exists i :: 0 <= i < |past| && past[i].Start? && past[i].request == Authorize(req, "code", "S256")
  }

  /** This client sent such a request. */
  predicate AskedBy(past: seq<Event>, clientID: string) {
    exists i :: 0 <= i < |past| && AsksAs(past[i], clientID)
  }

  predicate AsksAs(e: Event, clientID: string) {
    && e.Start? && e.request.Authorize? && e.request.req.clientID == clientID
    && e.request.responseType == "code" && e.request.challengeMethod == "S256"
  }

  /** A token request in this client's name. */
  predicate PresentsAs(r: Request, clientID: string) {
    (r.CodeGrant? && r.clientID == clientID) || (r.RefreshGrant? && r.grantClientID == clientID)
  }

  predicate PresentedBy(past: seq<Event>, clientID: string) {
    exists i :: 0 <= i < |past| && past[i].Start? && PresentsAs(past[i].request, clientID)
  }

  /** The request that a request number stands for: the last one that was let in under it. */
  ghost function Let(s: Sys, e: Event, serving: map<nat, Request>): map<nat, Request> {
    if Enabled(s, e) && e.Start? then serving[e.pid := e.request] else serving
  }

  ghost function Serving(cfg: Config, s: Sys, events: seq<Event>, serving: map<nat, Request>): map<nat, Request>
    decreases |events|
  {
    if events == [] then serving
    else Serving(cfg, Next(cfg, s, events[0]).0, events[1..], Let(s, events[0], serving))
  }

  // ----- what stands behind a handler and a row -----

  /** A reconnection, which asks for nothing, or an authorization request. */
  predicate Parked(past: seq<Event>, req: OAuthRequest) { req.clientID == "" || Asked(past, req) }

  /** The handler does what its request asks for, for the one who asks. */
  predicate Serves(r: Request, p: Proc) {
    match p
    case Parking(req) => r == Authorize(req, "code", "S256")
    case Minting(_, clientID) => PresentsAs(r, clientID)
    case Deleting(_) => r.DataDeletion?
    case SyncingTool(id) => r == SyncTool(id)
    case Sweeping(_) => r.Sweep?
    case _ => r.Callback?
  }

  /** Its data come from requests that were sent. */
  predicate Backed(past: seq<Event>, p: Proc) {
    match p
    case Parking(req) => Asked(past, req)
    case LoggingIn(req) => Parked(past, req)
    case Upserting(req, _, _) => Parked(past, req)
    case Syncing(req, _) => Parked(past, req)
    case Issuing(req, _) => Asked(past, req) && req.clientID != ""
    case Minting(_, clientID) => AskedBy(past, clientID) && PresentedBy(past, clientID)
    case _ => true
  }

  /** The code copies an authorization request that was sent. */
  ghost predicate CodeFrom(past: seq<Event>, row: CodeRow) {
    exists clientState ::
      Asked(past, OAuthRequest(row.clientID, row.redirectURI, row.codeChallenge, clientState, row.resource))
  }

  ghost predicate RowsFrom(past: seq<Event>, t: Tables) {
    && (forall x :: x in t.logins ==> Parked(past, t.logins[x].request))
    && (forall c :: c in t.codes ==> CodeFrom(past, t.codes[c]))
    && (forall h :: h in t.refresh ==>
        AskedBy(past, t.refresh[h].clientID) && PresentedBy(past, t.refresh[h].clientID))
  }

  ghost predicate HandlerFrom(past: seq<Event>, serving: map<nat, Request>, pid: nat, p: Proc) {
    Backed(past, p) && pid in serving && Serves(serving[pid], p)
  }

  ghost predicate Accounted(past: seq<Event>, serving: map<nat, Request>, s: Sys) {
    && RowsFrom(past, s.t)
    && forall pid :: pid in s.procs ==> HandlerFrom(past, serving, pid, s.procs[pid])
  }

  // ----- one more event -----

  lemma Longer(past: seq<Event>, e: Event)
    ensures forall req :: Asked(past, req) ==> Asked(past + [e], req)
    ensures forall c :: AskedBy(past, c) ==> AskedBy(past + [e], c)
    ensures forall c :: PresentedBy(past, c) ==> PresentedBy(past + [e], c)
  {
    var more := past + [e];
    assert forall i :: 0 <= i < |past| ==> more[i] == past[i];
  }

  lemma RowsStay(past: seq<Event>, e: Event, t: Tables)
    requires RowsFrom(past, t)
    ensures RowsFrom(past + [e], t)
  {
    Longer(past, e);
    forall c | c in t.codes ensures CodeFrom(past + [e], t.codes[c]) {
      var row := t.codes[c];
      assert CodeFrom(past, row);
    }
  }

  lemma StillBacked(past: seq<Event>, e: Event, p: Proc)
    requires Backed(past, p)
    ensures Backed(past + [e], p)
  {
    Longer(past, e);
  }

  lemma Last(past: seq<Event>, e: Event)
    requires e.Start?
    ensures var more := past + [e];
            && (forall c :: PresentsAs(e.request, c) ==> PresentedBy(more, c))
            && (forall c :: AsksAs(e, c) ==> AskedBy(more, c))
            && (e.request.Authorize? && e.request.responseType == "code" && e.request.challengeMethod == "S256" ==>
                Asked(more, e.request.req))
  {
    var more := past + [e];
    assert more[|past|] == e;
  }

  /** The client of a code has asked for it. */
  lemma CodeClientAsked(past: seq<Event>, row: CodeRow)
    requires CodeFrom(past, row)
    ensures AskedBy(past, row.clientID)
  {
    var clientState :| Asked(past, OAuthRequest(row.clientID, row.redirectURI, row.codeChallenge, clientState,
        row.resource));
    var i :| 0 <= i < |past| && past[i].Start?
        && past[i].request == Authorize(OAuthRequest(row.clientID, row.redirectURI, row.codeChallenge, clientState,
             row.resource), "code", "S256");
    assert AsksAs(past[i], row.clientID);
  }

  /** Codes may go, tokens may be revoked, logins may go and reconnections may come: all rows are still accounted. */
  lemma FewerRowsFrom(past: seq<Event>, t: Tables, after: Tables)
    requires RowsFrom(past, t)
    requires forall x :: x in after.logins ==>
               IsReconnect(after.logins[x].request) || (x in t.logins && after.logins[x] == t.logins[x])
    requires forall c :: c in after.codes ==> c in t.codes && after.codes[c] == t.codes[c]
    requires forall h :: h in after.refresh ==> h in t.refresh && after.refresh[h].clientID == t.refresh[h].clientID
    ensures RowsFrom(past, after)
  {
  }

  lemma StartAddsNoCode(cfg: Config, t: Tables, r: Request, now: Time, c: string)
    requires c in Begin(cfg, t, r, now).0.codes
    ensures c in t.codes && Begin(cfg, t, r, now).0.codes[c] == t.codes[c]
  {
    if !r.CodeGrant? { BeginElsewhere(cfg, t, r, now); }
  }

  lemma StartAddsNoToken(cfg: Config, t: Tables, r: Request, now: Time, h: string)
    requires h in Begin(cfg, t, r, now).0.refresh
    ensures h in t.refresh && Begin(cfg, t, r, now).0.refresh[h].clientID == t.refresh[h].clientID
  {
    if !r.RefreshGrant? { BeginElsewhere(cfg, t, r, now); }
  }

  lemma StartAddsReconnections(cfg: Config, t: Tables, r: Request, now: Time, x: string)
    requires var after := Begin(cfg, t, r, now).0; x in after.logins && !IsReconnect(after.logins[x].request)
    ensures x in t.logins && Begin(cfg, t, r, now).0.logins[x] == t.logins[x]
  {
    if !r.Callback? && !r.Reconnect? { BeginElsewhere(cfg, t, r, now); }
  }

  lemma StartKeepsRows(cfg: Config, past: seq<Event>, t: Tables, after: Tables, r: Request, now: Time)
    requires RowsFrom(past, t) && after == Begin(cfg, t, r, now).0
    ensures RowsFrom(past, after)
  {
    forall c | c in after.codes
      ensures c in t.codes && after.codes[c] == t.codes[c] { StartAddsNoCode(cfg, t, r, now, c); }
    forall h | h in after.refresh ensures h in t.refresh && after.refresh[h].clientID == t.refresh[h].clientID {
      StartAddsNoToken(cfg, t, r, now, h);
    }
    forall x | x in after.logins && !IsReconnect(after.logins[x].request)
      ensures x in t.logins && after.logins[x] == t.logins[x] { StartAddsReconnections(cfg, t, r, now, x); }
    FewerRowsFrom(past, t, after);
  }

  lemma StartIsBacked(cfg: Config, past: seq<Event>, t: Tables, e: Event)
    requires e.Start? && RowsFrom(past + [e], t)
    ensures var o := Begin(cfg, t, e.request, e.now).1;
            o.Then? ==> Backed(past + [e], o.proc) && Serves(e.request, o.proc)
  {
    var more := past + [e];
    Last(past, e);
    match e.request
    case CodeGrant(code, _, _, _, _) => CodeGrantIsBacked(cfg, more, t, e.request, e.now);
    case RefreshGrant(token, clientID) => RefreshGrantIsBacked(cfg, more, t, token, clientID, e.now);
    case Callback(_) =>
    case _ =>
  }

  lemma CodeGrantIsBacked(cfg: Config, past: seq<Event>, t: Tables, r: Request, now: Time)
    requires r.CodeGrant? && RowsFrom(past, t) && PresentedBy(past, r.clientID)
    ensures var o := BeginCodeGrant(cfg, t, r, now).1; o.Then? ==> Backed(past, o.proc) && Serves(r, o.proc)
  {
    if r.code in t.codes { CodeClientAsked(past, t.codes[r.code]); }
  }

  lemma RefreshGrantIsBacked(cfg: Config, past: seq<Event>, t: Tables, token: string, clientID: string, now: Time)
    requires RowsFrom(past, t) && PresentedBy(past, clientID)
    ensures var o := BeginRefreshGrant(cfg, t, token, clientID, now).1;
            o.Then? ==> Backed(past, o.proc) && Serves(RefreshGrant(token, clientID), o.proc)
  {
  }

  lemma IssuedFrom(past: seq<Event>, req: OAuthRequest, row: CodeRow)
    requires Asked(past, req)
    requires row.clientID == req.clientID && row.redirectURI == req.redirectURI
    requires row.codeChallenge == req.codeChallenge && row.resource == req.resource
    ensures CodeFrom(past, row)
  {
    assert OAuthRequest(row.clientID, row.redirectURI, row.codeChallenge, req.clientState, row.resource) == req;
  }

  lemma StepKeepsRows(cfg: Config, past: seq<Event>, t: Tables, p: Proc, input: Input, now: Time)
    requires RowsFrom(past, t) && Backed(past, p)
    ensures RowsFrom(past, Resume(cfg, t, p, input, now).0)
  {
    match p
    case Issuing(req, id) =>
      IssuedFrom(past, req, CodeRow(req.clientID, id, req.redirectURI, req.codeChallenge, req.resource,
          Unix(now + AUTH_CODE_TTL)));
    case Deleting(id) => DeleteExact(t, id);
    case Parking(_) =>
    case Minting(_, _) =>
    case Sweeping(_) =>
    case _ =>
  }

  lemma StepIsBacked(cfg: Config, past: seq<Event>, t: Tables, p: Proc, input: Input, now: Time, r: Request)
    requires Backed(past, p) && Serves(r, p)
    ensures var o := Resume(cfg, t, p, input, now).1; o.Then? ==> Backed(past, o.proc) && Serves(r, o.proc)
  {
  }

  lemma EventAccounted(cfg: Config, past: seq<Event>, serving: map<nat, Request>, s: Sys, e: Event)
    requires Accounted(past, serving, s)
    ensures Accounted(past + [e], Let(s, e, serving), Next(cfg, s, e).0)
  {
    var after := Next(cfg, s, e).0;
    RowsStay(past, e, s.t);
    if Enabled(s, e) && e.Start? {
      StartKeepsRows(cfg, past + [e], s.t, Begin(cfg, s.t, e.request, e.now).0, e.request, e.now);
      StartIsBacked(cfg, past, s.t, e);
    }
    if Enabled(s, e) && e.Step? {
      StillBacked(past, e, s.procs[e.pid]);
      StepKeepsRows(cfg, past + [e], s.t, s.procs[e.pid], e.input, e.now);
      StepIsBacked(cfg, past + [e], s.t, s.procs[e.pid], e.input, e.now, serving[e.pid]);
    }
    forall pid | pid in after.procs ensures HandlerFrom(past + [e], Let(s, e, serving), pid, after.procs[pid]) {
      if pid in s.procs && after.procs[pid] == s.procs[pid] { StillBacked(past, e, s.procs[pid]); }
    }
  }

  lemma {:induction false} RunAccounted(cfg: Config, past: seq<Event>, serving: map<nat, Request>, s: Sys,
      events: seq<Event>)
    requires Accounted(past, serving, s)
    ensures Accounted(past + events, Serving(cfg, s, events, serving), Run(cfg, s, events))
    decreases |events|
  {
    if events == [] {
      assert past + events == past;
    } else {
      var e := events[0];
      EventAccounted(cfg, past, serving, s, e);
      RunAccounted(cfg, past + [e], Let(s, e, serving), Next(cfg, s, e).0, events[1..]);
      assert past + [e] + events[1..] == past + events;
    }
  }

  // ----- from the empty database -----

  const NOBODY := Sys(Tables(map[], map[], map[], map[], map[], map[]), map[])

  /** In every run from an empty database: a parked login is a reconnection or an authorization request for a code with
      an S256 challenge; every code copies such a request; every refresh token belongs to a client that sent one, and
      that itself presented the code or token it was exchanged for; every handler serves the request it was started
      by. */
  lemma EverythingWasAskedFor(cfg: Config, events: seq<Event>)
    ensures Accounted(events, Serving(cfg, NOBODY, events, map[]), Run(cfg, NOBODY, events))
  {
    RunAccounted(cfg, [], map[], NOBODY, events);
    assert [] + events == events;
  }

  /** A refresh token is stored only while serving a token request in the name of the client it is stored for, and
      status 200 is that request's answer. */
  lemma GrantedToItsClient(cfg: Config, events: seq<Event>, e: Event, h: string)
    requires var s := Run(cfg, NOBODY, events); h !in s.t.refresh && h in Next(cfg, s, e).0.t.refresh
    ensures var s, serving := Run(cfg, NOBODY, events), Serving(cfg, NOBODY, events, map[]);
            && e.Step? && e.pid in serving
            && PresentsAs(serving[e.pid], Next(cfg, s, e).0.t.refresh[h].clientID)
            && Next(cfg, s, e).1 == Some(Response(200, ""))
  {
    EverythingWasAskedFor(cfg, events);
    var s, serving := Run(cfg, NOBODY, events), Serving(cfg, NOBODY, events, map[]);
    OnlyMintsAdd(cfg, s, e, h);
    assert HandlerFrom(events, serving, e.pid, s.procs[e.pid]);
  }

  lemma OnlyMintsAdd(cfg: Config, s: Sys, e: Event, h: string)
    requires h !in s.t.refresh && h in Next(cfg, s, e).0.t.refresh
    ensures e.Step? && e.pid in s.procs && s.procs[e.pid].Minting?
    ensures Next(cfg, s, e).0.t.refresh[h].clientID == s.procs[e.pid].clientID
    ensures Next(cfg, s, e).1 == Some(Response(200, ""))
  {
    if Enabled(s, e) && e.Start? && h in Begin(cfg, s.t, e.request, e.now).0.refresh {
      StartAddsNoToken(cfg, s.t, e.request, e.now, h);
    }
    if Enabled(s, e) && e.Step? { StepAddsToken(cfg, s.t, s.procs[e.pid], e.input, e.now, h); }
  }

  lemma StepAddsToken(cfg: Config, t: Tables, p: Proc, input: Input, now: Time, h: string)
    requires h !in t.refresh
    ensures var (after, o) := Resume(cfg, t, p, input, now);
            h in after.refresh ==>
              p.Minting? && after.refresh[h].clientID == p.clientID && o == Done(Response(200, ""))
  {
    if p.Syncing? || p.SyncingTool? || p.Upserting? || p.Sweeping? || p.LoggingIn? {
      OtherTables(cfg, t, p, input, now);
    }
  }
}
