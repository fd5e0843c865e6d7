/** Where every credential comes from, and that no authorization ever splits in two. */
module Lineage {
  import opened Domain
  import opened Storage
  import opened Session

  /** A credential somebody can present: a parked login state, a code, a refresh token (by its hash). */
  datatype Cred = StateCred(state: string) | CodeCred(code: string) | RefreshCred(hash: string)

  /** The history of a run. A family is the index of the accepted authorize request it started from.
      `held` is the credential a handler in flight has consumed and not yet turned into the next one. */
  datatype History = History(
    requests: seq<OAuthRequest>,
    family: map<Cred, nat>,
    parent: map<Cred, Cred>,
    held: map<nat, Cred>,
    tenant: map<nat, string>,
    verifier: map<nat, string>)

  datatype Traced = Traced(s: Sys, h: History)

  const EMPTY := Traced(Sys(Tables(map[], map[], map[], map[], map[], map[]), map[]),
                        History([], map[], map[], map[], map[], map[]))

  function Drop(h: History, pid: nat): History { h.(held := h.held - {pid}) }

  /** Handler `pid` turns the credential it holds into `child`. */
  function Extend(h: History, pid: nat, child: Cred): History {
    if pid in h.held && h.held[pid] in h.family then
      Drop(h.(family := h.family[child := h.family[h.held[pid]]], parent := h.parent[child := h.held[pid]]), pid)
    else
      Drop(h, pid)
  }

  function FamilyOf(h: History, pid: nat): nat {
    if pid in h.held && h.held[pid] in h.family then h.family[h.held[pid]] else 0
  }

  ghost function RecordStart(h: History, cfg: Config, pid: nat, request: Request, o: Outcome): History {
    if o.Done? then h
    else
      match request
      case Callback(state) => if o.proc.LoggingIn? && IsReconnect(o.proc.req) then h
          else h.(held := h.held[pid := StateCred(state)])
      case CodeGrant(code, verifier, _, _, _) =>
        var h' := h.(held := h.held[pid := CodeCred(code)]);
        h'.(verifier := h.verifier[FamilyOf(h', pid) := verifier])
      case RefreshGrant(token, _) => h.(held := h.held[pid := RefreshCred(cfg.s256(token))])
      case _ => h
  }

  ghost function RecordStep(h: History, cfg: Config, t: Tables, pid: nat, p: Proc, input: Input, o: Outcome): History {
    if p.Parking? && input.Secret? then
      if input.drawn in t.logins then Drop(h, pid)
      else h.(requests := h.requests + [p.req], family := h.family[StateCred(input.drawn) := |h.requests|])
    else if p.Issuing? && input.Secret? then
      if input.drawn in t.codes then Drop(h, pid)
      else Extend(h, pid, CodeCred(input.drawn)).(tenant := h.tenant[FamilyOf(h, pid) := p.id])
    else if p.Minting? && input.Secret? then
      if cfg.s256(input.drawn) in t.refresh then Drop(h, pid) else Extend(h, pid, RefreshCred(cfg.s256(input.drawn)))
    else if o.Done? then Drop(h, pid)
    else h
  }

  /** History only watches: it never influences the machine. */
  ghost function Watch(cfg: Config, a: Traced, e: Event): Traced {
    var s' := Next(cfg, a.s, e).0;
    if !Enabled(a.s, e) then a
    else
      match e
      case Abort(pid) => Traced(s', Drop(a.h, pid))
      case Start(pid, request, _) => Traced(s', RecordStart(a.h, cfg, pid, request, Call(cfg, a.s, e).1))
      case Step(pid, input, _) =>
          Traced(s', RecordStep(a.h, cfg, a.s.t, pid, a.s.procs[pid], input, Call(cfg, a.s, e).1))
      case _ => Traced(s', a.h)
  }

  /** The 32 random bytes a handler draws name no credential that was ever issued. */
  ghost predicate FreshDraw(cfg: Config, a: Traced, e: Event) {
    Enabled(a.s, e) && e.Step? && e.input.Secret? ==>
      match a.s.procs[e.pid]
      case Parking(_) => StateCred(e.input.drawn) !in a.h.family
      case Issuing(_, _) => CodeCred(e.input.drawn) !in a.h.family
      case Minting(_, _) => RefreshCred(cfg.s256(e.input.drawn)) !in a.h.family
      case _ => true
  }

  ghost predicate FreshRun(cfg: Config, a: Traced, events: seq<Event>)
    decreases |events|
  {
    events != [] ==> FreshDraw(cfg, a, events[0]) && FreshRun(cfg, Watch(cfg, a, events[0]), events[1..])
  }

  ghost function WatchRun(cfg: Config, a: Traced, events: seq<Event>): Traced
    decreases |events|
  {
    if events == [] then a else WatchRun(cfg, Watch(cfg, a, events[0]), events[1..])
  }

  lemma {:induction false} HistoryOnlyWatches(cfg: Config, a: Traced, events: seq<Event>)
    ensures WatchRun(cfg, a, events).s == Run(cfg, a.s, events)
    decreases |events|
  {
    if events != [] {
      HistoryOnlyWatches(cfg, Watch(cfg, a, events[0]), events[1..]);
    }
  }

  // ----- who owns a family -----

  /** A usable credential sits in a table row or with a handler in flight. */
  datatype Owner = Row(cred: Cred) | Handler(pid: nat)

  predicate Live(a: Traced, o: Owner) {
    match o
    case Row(StateCred(x)) => x in a.s.t.logins && !IsReconnect(a.s.t.logins[x].request)
    case Row(CodeCred(x)) => x in a.s.t.codes
    case Row(RefreshCred(x)) => x in a.s.t.refresh && !a.s.t.refresh[x].revoked
    case Handler(pid) => pid in a.h.held
  }

  function Owned(a: Traced, o: Owner): Cred
    requires Live(a, o)
  {
    match o
    case Row(cred) => cred
    case Handler(pid) => a.h.held[pid]
  }

  ghost predicate Tracked(a: Traced) {
    && (forall c :: c in a.h.family ==> a.h.family[c] < |a.h.requests|)
    && (forall o :: Live(a, o) ==> Owned(a, o) in a.h.family)
  }

  /** A family has at most one owner. */
  ghost predicate Linear(a: Traced)
    requires Tracked(a)
  {
    forall o, o' :: Live(a, o) && Live(a, o') && a.h.family[Owned(a, o)] == a.h.family[Owned(a, o')] ==> o == o'
  }

  /** Credentials of a family form a chain: nobody has two children, and what is still usable has none. */
  ghost predicate Chained(a: Traced) {
    && (forall c :: c in a.h.parent ==>
          && c in a.h.family && a.h.parent[c] in a.h.family
          && a.h.family[c] == a.h.family[a.h.parent[c]])
    && (forall c, c' :: c in a.h.parent && c' in a.h.parent && a.h.parent[c] == a.h.parent[c'] ==> c == c')
    && (forall o, c :: Live(a, o) && c in a.h.parent ==> a.h.parent[c] != Owned(a, o))
  }

  // ----- what a family's credentials say -----

  /** RFC 7636, section 4.6: the verifier is well-formed and hashes to the challenge. */
  predicate Proven(cfg: Config, verifier: string, challenge: string) {
    MIN_VERIFIER_LEN <= |verifier| <= MAX_VERIFIER_LEN && cfg.s256(verifier) == challenge
  }

  /** The request came from a registered client that listed this redirect URI. */
  predicate Accepted(cfg: Config, t: Tables, req: OAuthRequest) {
    && req.clientID != "" && req.clientID in t.clients
    && req.redirectURI in t.clients[req.clientID].redirectURIs
    && req.codeChallenge != ""
    && (req.resource == "" || req.resource == cfg.resource)
  }

  predicate WellRegistered(cfg: Config, row: ClientRow) {
    && 1 <= |row.redirectURIs| <= MAX_REDIRECT_URIS
    && forall i :: 0 <= i < |row.redirectURIs| ==> cfg.validRedirectURI(row.redirectURIs[i])
  }

  /** The handler works for a family: it must hold that family's credential. */
  predicate Carries(p: Proc) {
    p.Minting? || ((p.LoggingIn? || p.Upserting? || p.Syncing? || p.Issuing?) && !IsReconnect(p.req))
  }

  predicate LoginMatches(h: History, f: nat, req: OAuthRequest) {
    f < |h.requests| && req == h.requests[f] && f !in h.tenant
  }

  predicate CodeMatches(h: History, f: nat, row: CodeRow) {
    && f < |h.requests|
    && row.clientID == h.requests[f].clientID && row.redirectURI == h.requests[f].redirectURI
    && row.codeChallenge == h.requests[f].codeChallenge && row.resource == h.requests[f].resource
    && f in h.tenant && row.tenantID == h.tenant[f] && f !in h.verifier
  }

  predicate SessionMatches(cfg: Config, h: History, f: nat, tenantID: string, clientID: string) {
    && f < |h.requests| && clientID == h.requests[f].clientID
    && f in h.tenant && tenantID == h.tenant[f]
    && f in h.verifier && Proven(cfg, h.verifier[f], h.requests[f].codeChallenge)
  }

  /** The row of a credential, if it has one, says what its family says. */
  predicate RowOk(cfg: Config, a: Traced, c: Cred) {
    var t, h := a.s.t, a.h;
    match c
    case StateCred(x) =>
      x in t.logins ==>
        if IsReconnect(t.logins[x].request) then t.logins[x].request == RECONNECT
        else c in h.family && LoginMatches(h, h.family[c], t.logins[x].request)
    case CodeCred(x) => x in t.codes ==> c in h.family && CodeMatches(h, h.family[c], t.codes[x])
    case RefreshCred(x) =>
      x in t.refresh ==>
          c in h.family && SessionMatches(cfg, h, h.family[c], t.refresh[x].tenantID, t.refresh[x].clientID)
  }

  /** A handler that works for a family holds a credential of it and agrees with it. */
  predicate HandlerOk(cfg: Config, a: Traced, pid: nat) {
    && (pid in a.h.held ==> pid in a.s.procs && Carries(a.s.procs[pid]))
    && (pid in a.s.procs ==>
          var p := a.s.procs[pid];
          && (Carries(p) ==>
                && pid in a.h.held && a.h.held[pid] in a.h.family
                && var f := a.h.family[a.h.held[pid]];
                   if p.Minting? then SessionMatches(cfg, a.h, f, p.id, p.clientID) else LoginMatches(a.h, f, p.req))
          && (p.Parking? ==> Accepted(cfg, a.s.t, p.req))
          && (p.Issuing? ==> !IsReconnect(p.req)))
  }

  ghost predicate Registry(cfg: Config, a: Traced) {
    && (forall c :: c in a.s.t.clients ==> WellRegistered(cfg, a.s.t.clients[c]))
    && (forall f :: 0 <= f < |a.h.requests| ==> Accepted(cfg, a.s.t, a.h.requests[f]))
    && (forall f :: f in a.h.tenant ==> f < |a.h.requests|)
    && (forall f :: f in a.h.verifier ==> f in a.h.tenant)
  }

  ghost predicate Rows(cfg: Config, a: Traced) { forall c :: RowOk(cfg, a, c) }

  ghost predicate Handlers(cfg: Config, a: Traced) { forall pid :: HandlerOk(cfg, a, pid) }

  ghost predicate Owners(a: Traced) { Tracked(a) && Linear(a) && Chained(a) }

  ghost predicate Inv(cfg: Config, a: Traced) {
    Owners(a) && Registry(cfg, a) && Rows(cfg, a) && Handlers(cfg, a)
  }

  predicate SameRow(t: Tables, t': Tables, c: Cred) {
    match c
    case StateCred(x) => x in t'.logins ==> x in t.logins && t'.logins[x] == t.logins[x]
    case CodeCred(x) => x in t'.codes ==> x in t.codes && t'.codes[x] == t.codes[x]
    case RefreshCred(x) =>
      x in t'.refresh ==>
        && x in t.refresh && t'.refresh[x].tenantID == t.refresh[x].tenantID
            && t'.refresh[x].clientID == t.refresh[x].clientID
        && (t.refresh[x].revoked ==> t'.refresh[x].revoked)
  }

  // ----- events that only take away -----

  /** The handler moved on without changing whom it works for, or works for nobody. */
  predicate SameDuty(p: Proc, q: Proc) {
    || p == q
    || (Carries(p) && Carries(q) && !p.Minting? && !q.Minting? && p.req == q.req)
  }

  predicate Idle(q: Proc) { !Carries(q) && !q.Parking? && !q.Issuing? }

  /** Rows may vanish or be revoked and handlers may end, but nothing else changes. */
  ghost predicate Fewer(a: Traced, b: Traced) {
    && b.h == a.h.(held := b.h.held)
    && b.s.t.clients == a.s.t.clients
    && (forall c :: SameRow(a.s.t, b.s.t, c))
    && (forall pid :: pid in b.s.procs ==>
          Idle(b.s.procs[pid]) || (pid in a.s.procs && SameDuty(a.s.procs[pid], b.s.procs[pid])))
    && (forall pid :: pid in b.h.held ==>
          pid in a.h.held && b.h.held[pid] == a.h.held[pid] && pid in b.s.procs && Carries(b.s.procs[pid]))
    && (forall pid :: pid in a.h.held && pid in b.s.procs && Carries(b.s.procs[pid]) ==> pid in b.h.held)
  }

  lemma FewerKeepsInv(cfg: Config, a: Traced, b: Traced)
    requires Inv(cfg, a) && Fewer(a, b)
    ensures Inv(cfg, b)
  {
    forall o | Live(b, o) ensures Live(a, o) && Owned(b, o) == Owned(a, o) {
      if o.Row? { assert SameRow(a.s.t, b.s.t, o.cred); }
    }
    forall c ensures RowOk(cfg, b, c) {
      assert RowOk(cfg, a, c) && SameRow(a.s.t, b.s.t, c);
    }
    forall pid ensures HandlerOk(cfg, b, pid) {
      assert HandlerOk(cfg, a, pid);
    }
  }

  // ----- events that move a family's ownership -----

  /** Ownership passes from `from` to `to` of the same family, everything else can only shrink. */
  lemma HandOver(a: Traced, b: Traced, from: Owner, to: Owner)
    requires Tracked(a) && Linear(a) && Live(a, from)
    requires forall o :: Live(b, o) && o != to ==>
               && Live(a, o) && o != from && Owned(b, o) == Owned(a, o)
               && Owned(a, o) in b.h.family && b.h.family[Owned(a, o)] == a.h.family[Owned(a, o)]
    requires Live(b, to) ==> Owned(b, to) in b.h.family && b.h.family[Owned(b, to)] == a.h.family[Owned(a, from)]
    ensures forall o :: Live(b, o) ==> Owned(b, o) in b.h.family
    ensures forall o, o' :: Live(b, o) && Live(b, o') && b.h.family[Owned(b, o)] == b.h.family[Owned(b, o')] ==> o == o'
  {}

  ghost predicate Consumed(cfg: Config, a: Traced, b: Traced, pid: nat, cred: Cred, verifier: string) {
    && pid !in a.s.procs && Live(a, Row(cred)) && cred in a.h.family
    && b.h == a.h.(held := a.h.held[pid := cred],
                   verifier := if cred.CodeCred? then a.h.verifier[a.h.family[cred] := verifier] else a.h.verifier)
    && match cred
       case StateCred(x) =>
         b.s == Sys(a.s.t.(logins := a.s.t.logins - {x}), a.s.procs[pid := LoggingIn(a.s.t.logins[x].request)])
       case CodeCred(x) =>
         && Proven(cfg, verifier, a.s.t.codes[x].codeChallenge)
         && b.s == Sys(a.s.t.(codes := a.s.t.codes - {x}),
             a.s.procs[pid := Minting(a.s.t.codes[x].tenantID, a.s.t.codes[x].clientID)])
       case RefreshCred(x) =>
         b.s == Sys(a.s.t.(refresh := a.s.t.refresh[x := a.s.t.refresh[x].(revoked := true)]),
                    a.s.procs[pid := Minting(a.s.t.refresh[x].tenantID, a.s.t.refresh[x].clientID)])
  }

  /** A credential is presented, and its handler goes on to issue the next one. */
  lemma ConsumeKeepsInv(cfg: Config, a: Traced, b: Traced, pid: nat, cred: Cred, verifier: string)
    requires Inv(cfg, a) && Consumed(cfg, a, b, pid, cred, verifier)
    ensures Inv(cfg, b)
  {
    assert HandlerOk(cfg, a, pid) && RowOk(cfg, a, cred);
    ConsumeKeepsOwners(cfg, a, b, pid, cred, verifier);
    ConsumeKeepsRows(cfg, a, b, pid, cred, verifier);
    ConsumeKeepsHandlers(cfg, a, b, pid, cred, verifier);
  }

  lemma ConsumeKeepsOwners(cfg: Config, a: Traced, b: Traced, pid: nat, cred: Cred, verifier: string)
    requires Owners(a) && pid !in a.h.held && Consumed(cfg, a, b, pid, cred, verifier)
    ensures Owners(b)
  {
    HandOver(a, b, Row(cred), Handler(pid));
  }

  lemma ConsumeKeepsRows(cfg: Config, a: Traced, b: Traced, pid: nat, cred: Cred, verifier: string)
    requires Inv(cfg, a) && Consumed(cfg, a, b, pid, cred, verifier)
    ensures Rows(cfg, b) && Registry(cfg, b)
  {
    assert RowOk(cfg, a, cred);
    forall c ensures RowOk(cfg, b, c) {
      assert RowOk(cfg, a, c);
      if c.CodeCred? && c != cred && c.code in a.s.t.codes { assert Live(a, Row(c)) && Live(a, Row(cred)); }
    }
  }

  lemma ConsumeKeepsHandlers(cfg: Config, a: Traced, b: Traced, pid: nat, cred: Cred, verifier: string)
    requires Inv(cfg, a) && Consumed(cfg, a, b, pid, cred, verifier)
    ensures Handlers(cfg, b)
  {
    assert RowOk(cfg, a, cred);
    forall p ensures HandlerOk(cfg, b, p) {
      assert HandlerOk(cfg, a, p);
      if p in a.h.held { assert Live(a, Handler(p)) && Live(a, Row(cred)); }
    }
  }

  ghost predicate Parked(a: Traced, b: Traced, pid: nat, drawn: string, row: LoginRow) {
    && pid in a.s.procs && a.s.procs[pid].Parking? && row.request == a.s.procs[pid].req
    && StateCred(drawn) !in a.h.family && drawn !in a.s.t.logins
    && b.s == Sys(a.s.t.(logins := a.s.t.logins[drawn := row]), a.s.procs - {pid})
    && b.h == a.h.(requests := a.h.requests + [row.request], family := a.h.family[StateCred(drawn) := |a.h.requests|])
  }

  /** An authorize request is parked: a new family starts. */
  lemma ParkKeepsInv(cfg: Config, a: Traced, b: Traced, pid: nat, drawn: string, row: LoginRow)
    requires Inv(cfg, a) && Parked(a, b, pid, drawn, row)
    ensures Inv(cfg, b)
  {
    assert HandlerOk(cfg, a, pid);
    forall o | Live(b, o) && o != Row(StateCred(drawn))
      ensures Live(a, o) && Owned(b, o) == Owned(a, o)
              && b.h.family[Owned(b, o)] == a.h.family[Owned(a, o)] < |a.h.requests|
    {}
    ParkKeepsRest(cfg, a, b, pid, drawn, row);
  }

  lemma ParkKeepsRest(cfg: Config, a: Traced, b: Traced, pid: nat, drawn: string, row: LoginRow)
    requires Inv(cfg, a) && Parked(a, b, pid, drawn, row)
    ensures Registry(cfg, b) && Rows(cfg, b) && Handlers(cfg, b)
  {
    assert HandlerOk(cfg, a, pid);
    forall c ensures RowOk(cfg, b, c) {
      assert RowOk(cfg, a, c);
    }
    forall p ensures HandlerOk(cfg, b, p) {
      assert HandlerOk(cfg, a, p);
    }
  }

  function IssuedRow(req: OAuthRequest, id: string, expiresAt: int): CodeRow {
    CodeRow(req.clientID, id, req.redirectURI, req.codeChallenge, req.resource, expiresAt)
  }

  ghost predicate Issued(a: Traced, b: Traced, pid: nat, child: Cred, expiresAt: int) {
    && pid in a.h.held && a.h.held[pid] in a.h.family && pid in a.s.procs && child !in a.h.family
    && b.s.procs == a.s.procs - {pid}
    && var p := a.s.procs[pid];
       if p.Issuing? then
         && child.CodeCred? && child.code !in a.s.t.codes
         && b.s.t == a.s.t.(codes := a.s.t.codes[child.code := IssuedRow(p.req, p.id, expiresAt)])
         && b.h == Extend(a.h, pid, child).(tenant := a.h.tenant[a.h.family[a.h.held[pid]] := p.id])
       else
         && p.Minting? && child.RefreshCred? && child.hash !in a.s.t.refresh
         && b.s.t == a.s.t.(refresh := a.s.t.refresh[child.hash := RefreshRow(p.clientID, p.id, expiresAt, false)])
         && b.h == Extend(a.h, pid, child)
  }

  /** A handler issues the credential that follows the one it consumed. */
  lemma IssueKeepsInv(cfg: Config, a: Traced, b: Traced, pid: nat, child: Cred, expiresAt: int)
    requires Inv(cfg, a) && Issued(a, b, pid, child, expiresAt)
    ensures Inv(cfg, b)
  {
    assert HandlerOk(cfg, a, pid);
    IssueKeepsOwners(cfg, a, b, pid, child, expiresAt);
    IssueKeepsRows(cfg, a, b, pid, child, expiresAt);
    IssueKeepsHandlers(cfg, a, b, pid, child, expiresAt);
  }

  lemma IssueKeepsOwners(cfg: Config, a: Traced, b: Traced, pid: nat, child: Cred, expiresAt: int)
    requires Owners(a) && Issued(a, b, pid, child, expiresAt)
    ensures Owners(b)
  {
    assert Live(a, Handler(pid));
    HandOver(a, b, Handler(pid), Row(child));
  }

  lemma IssueKeepsRows(cfg: Config, a: Traced, b: Traced, pid: nat, child: Cred, expiresAt: int)
    requires Inv(cfg, a) && Issued(a, b, pid, child, expiresAt)
    ensures Rows(cfg, b) && Registry(cfg, b)
  {
    assert HandlerOk(cfg, a, pid) && Live(a, Handler(pid));
    forall c ensures RowOk(cfg, b, c) {
      assert RowOk(cfg, a, c);
      if c != child && Live(a, Row(c)) { assert a.h.family[c] != a.h.family[a.h.held[pid]]; }
    }
  }

  lemma IssueKeepsHandlers(cfg: Config, a: Traced, b: Traced, pid: nat, child: Cred, expiresAt: int)
    requires Inv(cfg, a) && Issued(a, b, pid, child, expiresAt)
    ensures Handlers(cfg, b)
  {
    assert HandlerOk(cfg, a, pid) && Live(a, Handler(pid));
    forall p ensures HandlerOk(cfg, b, p) {
      assert HandlerOk(cfg, a, p);
      if p in a.h.held && p != pid { assert Live(a, Handler(p)); }
    }
  }

  // ----- every event -----

  lemma HoldersCarry(cfg: Config, a: Traced)
    requires Handlers(cfg, a)
    ensures forall pid :: pid in a.h.held ==> pid in a.s.procs && Carries(a.s.procs[pid])
  {
    forall pid | pid in a.h.held ensures pid in a.s.procs && Carries(a.s.procs[pid]) {
      assert HandlerOk(cfg, a, pid);
    }
  }

  /** The handler of `pid` ended, or took a step that issues nothing. */
  lemma QuietKeepsInv(cfg: Config, a: Traced, b: Traced, pid: nat)
    requires Inv(cfg, a) && b.s.t.clients == a.s.t.clients
    requires forall c :: SameRow(a.s.t, b.s.t, c)
    requires
      || (b.s.procs == a.s.procs - {pid} && b.h == Drop(a.h, pid))
      || (b.h == a.h && pid in b.s.procs && b.s.procs == a.s.procs[pid := b.s.procs[pid]]
          && if pid in a.s.procs then SameDuty(a.s.procs[pid], b.s.procs[pid])
              || (Idle(a.s.procs[pid]) && Idle(b.s.procs[pid]))
             else Idle(b.s.procs[pid]))
    ensures Inv(cfg, b)
  {
    HoldersCarry(cfg, a);
    FewerKeepsInv(cfg, a, b);
  }

  lemma StartKeepsInv(cfg: Config, a: Traced, e: Event)
    requires Inv(cfg, a) && e.Start? && Enabled(a.s, e)
    ensures Inv(cfg, Watch(cfg, a, e))
  {
    assert HandlerOk(cfg, a, e.pid);
    match e.request
    case Register(_, _, _) => RegisterKeepsInv(cfg, a, e);
    case Authorize(_, _, _) => AuthorizeKeepsInv(cfg, a, e);
    case Reconnect(_) => ReconnectKeepsInv(cfg, a, e);
    case Callback(_) => CallbackKeepsInv(cfg, a, e);
    case CodeGrant(_, _, _, _, _) => CodeGrantKeepsInv(cfg, a, e);
    case RefreshGrant(_, _) => RefreshGrantKeepsInv(cfg, a, e);
    case _ => QuietKeepsInv(cfg, a, Watch(cfg, a, e), e.pid);
  }

  lemma CallbackKeepsInv(cfg: Config, a: Traced, e: Event)
    requires Inv(cfg, a) && e.Start? && Enabled(a.s, e) && e.request.Callback?
    requires HandlerOk(cfg, a, e.pid)
    ensures Inv(cfg, Watch(cfg, a, e))
  {
    var o := Call(cfg, a.s, e).1;
    assert RowOk(cfg, a, StateCred(e.request.state));
    if o.Then? && !IsReconnect(o.proc.req) {
      ConsumeKeepsInv(cfg, a, Watch(cfg, a, e), e.pid, StateCred(e.request.state), "");
    } else {
      QuietKeepsInv(cfg, a, Watch(cfg, a, e), e.pid);
    }
  }

  lemma CodeGrantKeepsInv(cfg: Config, a: Traced, e: Event)
    requires Inv(cfg, a) && e.Start? && Enabled(a.s, e) && e.request.CodeGrant?
    requires HandlerOk(cfg, a, e.pid)
    ensures Inv(cfg, Watch(cfg, a, e))
  {
    var cred := CodeCred(e.request.code);
    assert RowOk(cfg, a, cred);
    if Call(cfg, a.s, e).1.Then? {
      ConsumeKeepsInv(cfg, a, Watch(cfg, a, e), e.pid, cred, e.request.verifier);
    } else {
      QuietKeepsInv(cfg, a, Watch(cfg, a, e), e.pid);
    }
  }

  lemma RefreshGrantKeepsInv(cfg: Config, a: Traced, e: Event)
    requires Inv(cfg, a) && e.Start? && Enabled(a.s, e) && e.request.RefreshGrant?
    requires HandlerOk(cfg, a, e.pid)
    ensures Inv(cfg, Watch(cfg, a, e))
  {
    var cred := RefreshCred(cfg.s256(e.request.token));
    assert RowOk(cfg, a, cred);
    if Call(cfg, a.s, e).1.Then? {
      ConsumeKeepsInv(cfg, a, Watch(cfg, a, e), e.pid, cred, "");
    } else {
      QuietKeepsInv(cfg, a, Watch(cfg, a, e), e.pid);
    }
  }

  lemma RegisterKeepsInv(cfg: Config, a: Traced, e: Event)
    requires Inv(cfg, a) && e.Start? && Enabled(a.s, e) && e.request.Register?
    ensures Inv(cfg, Watch(cfg, a, e))
  {
    var b, id := Watch(cfg, a, e), e.request.drawnID;
    assert a.s.procs - {e.pid} == a.s.procs;
    if b.s.t != a.s.t {
      NewClientKeepsInv(cfg, a, id, b.s.t.clients[id]);
    }
  }

  lemma NewClientKeepsInv(cfg: Config, a: Traced, id: string, row: ClientRow)
    requires Inv(cfg, a) && id !in a.s.t.clients && WellRegistered(cfg, row)
    ensures Inv(cfg, a.(s := Sys(a.s.t.(clients := a.s.t.clients[id := row]), a.s.procs)))
  {
    var b := a.(s := Sys(a.s.t.(clients := a.s.t.clients[id := row]), a.s.procs));
    forall o | Live(b, o) ensures Live(a, o) && Owned(b, o) == Owned(a, o) {}
    forall c ensures RowOk(cfg, b, c) { assert RowOk(cfg, a, c); }
    forall pid ensures HandlerOk(cfg, b, pid) { assert HandlerOk(cfg, a, pid); }
  }

  lemma AuthorizeKeepsInv(cfg: Config, a: Traced, e: Event)
    requires Inv(cfg, a) && e.Start? && Enabled(a.s, e) && e.request.Authorize?
    ensures Inv(cfg, Watch(cfg, a, e))
  {
    var b := Watch(cfg, a, e);
    forall o | Live(b, o) ensures Live(a, o) && Owned(b, o) == Owned(a, o) {}
    forall c ensures RowOk(cfg, b, c) { assert RowOk(cfg, a, c); }
    forall pid ensures HandlerOk(cfg, b, pid) { assert HandlerOk(cfg, a, pid); }
  }

  lemma ReconnectKeepsInv(cfg: Config, a: Traced, e: Event)
    requires Inv(cfg, a) && e.Start? && Enabled(a.s, e) && e.request.Reconnect?
    ensures Inv(cfg, Watch(cfg, a, e))
  {
    var b := Watch(cfg, a, e);
    forall o | Live(b, o) ensures Live(a, o) && Owned(b, o) == Owned(a, o) {}
    forall c ensures RowOk(cfg, b, c) { assert RowOk(cfg, a, c); }
    forall pid ensures HandlerOk(cfg, b, pid) { assert HandlerOk(cfg, a, pid); }
  }

  lemma ParkDrawKeepsInv(cfg: Config, a: Traced, e: Event)
    requires Inv(cfg, a) && e.Step? && Enabled(a.s, e) && FreshDraw(cfg, a, e) && e.input.Secret?
            && a.s.procs[e.pid].Parking?
    ensures Inv(cfg, Watch(cfg, a, e))
  {
    assert HandlerOk(cfg, a, e.pid);
    var b, drawn := Watch(cfg, a, e), e.input.drawn;
    if drawn in a.s.t.logins { QuietKeepsInv(cfg, a, b, e.pid); }
    else { ParkKeepsInv(cfg, a, b, e.pid, drawn, LoginRow(a.s.procs[e.pid].req, Unix(e.now + LOGIN_STATE_TTL))); }
  }

  lemma CodeDrawKeepsInv(cfg: Config, a: Traced, e: Event)
    requires Inv(cfg, a) && e.Step? && Enabled(a.s, e) && FreshDraw(cfg, a, e) && e.input.Secret?
            && a.s.procs[e.pid].Issuing?
    ensures Inv(cfg, Watch(cfg, a, e))
  {
    assert HandlerOk(cfg, a, e.pid);
    var b, drawn := Watch(cfg, a, e), e.input.drawn;
    if drawn in a.s.t.codes { QuietKeepsInv(cfg, a, b, e.pid); }
    else { IssueKeepsInv(cfg, a, b, e.pid, CodeCred(drawn), Unix(e.now + AUTH_CODE_TTL)); }
  }

  lemma TokenDrawKeepsInv(cfg: Config, a: Traced, e: Event)
    requires Inv(cfg, a) && e.Step? && Enabled(a.s, e) && FreshDraw(cfg, a, e) && e.input.Secret?
            && a.s.procs[e.pid].Minting?
    ensures Inv(cfg, Watch(cfg, a, e))
  {
    assert HandlerOk(cfg, a, e.pid);
    var b, drawn := Watch(cfg, a, e), e.input.drawn;
    if cfg.s256(drawn) in a.s.t.refresh { QuietKeepsInv(cfg, a, b, e.pid); }
    else { IssueKeepsInv(cfg, a, b, e.pid, RefreshCred(cfg.s256(drawn)), Unix(e.now + cfg.refreshTokenTTL)); }
  }

  /** A step that draws no secret adds no credential. */
  lemma QuietResume(cfg: Config, t: Tables, p: Proc, input: Input, now: Time, c: Cred)
    requires !(input.Secret? && (p.Parking? || p.Issuing? || p.Minting?))
    ensures SameRow(t, Resume(cfg, t, p, input, now).0, c)
  {}

  lemma StepKeepsInv(cfg: Config, a: Traced, e: Event)
    requires Inv(cfg, a) && e.Step? && Enabled(a.s, e) && FreshDraw(cfg, a, e)
    ensures Inv(cfg, Watch(cfg, a, e))
  {
    var p := a.s.procs[e.pid];
    if e.input.Secret? && p.Parking? {
      ParkDrawKeepsInv(cfg, a, e);
    } else if e.input.Secret? && p.Issuing? {
      CodeDrawKeepsInv(cfg, a, e);
    } else if e.input.Secret? && p.Minting? {
      TokenDrawKeepsInv(cfg, a, e);
    } else {
      QuietStepKeepsInv(cfg, a, e);
    }
  }

  /** It leaves its handler with the same duty, or with none. */
  lemma QuietDuty(cfg: Config, t: Tables, p: Proc, input: Input, now: Time)
    requires !(input.Secret? && (p.Parking? || p.Issuing? || p.Minting?))
    ensures Resume(cfg, t, p, input, now).0.clients == t.clients
    ensures var o := Resume(cfg, t, p, input, now).1;
            o.Then? ==> SameDuty(p, o.proc) || (Idle(p) && Idle(o.proc))
  {
    match p
    case LoggingIn(_) =>
    case Upserting(_, _, _) =>
    case Syncing(_, _) =>
    case _ =>
  }

  lemma QuietStepKeepsInv(cfg: Config, a: Traced, e: Event)
    requires Inv(cfg, a) && e.Step? && Enabled(a.s, e)
    requires var p := a.s.procs[e.pid]; !(e.input.Secret? && (p.Parking? || p.Issuing? || p.Minting?))
    ensures Inv(cfg, Watch(cfg, a, e))
  {
    var p := a.s.procs[e.pid];
    forall c ensures SameRow(a.s.t, Watch(cfg, a, e).s.t, c) { QuietResume(cfg, a.s.t, p, e.input, e.now, c); }
    QuietDuty(cfg, a.s.t, p, e.input, e.now);
    QuietKeepsInv(cfg, a, Watch(cfg, a, e), e.pid);
  }

  /** Every event, of any handler, keeps the whole invariant. */
  lemma WatchKeepsInv(cfg: Config, a: Traced, e: Event)
    requires Inv(cfg, a) && FreshDraw(cfg, a, e)
    ensures Inv(cfg, Watch(cfg, a, e))
  {
    if Enabled(a.s, e) {
      if e.Start? { StartKeepsInv(cfg, a, e); }
      else if e.Step? { StepKeepsInv(cfg, a, e); }
      else {
        HoldersCarry(cfg, a);
        FewerKeepsInv(cfg, a, Watch(cfg, a, e));
      }
    }
  }

  lemma {:induction false} RunKeepsInv(cfg: Config, a: Traced, events: seq<Event>)
    requires Inv(cfg, a) && FreshRun(cfg, a, events)
    ensures Inv(cfg, WatchRun(cfg, a, events))
    decreases |events|
  {
    if events != [] {
      WatchKeepsInv(cfg, a, events[0]);
      RunKeepsInv(cfg, Watch(cfg, a, events[0]), events[1..]);
    }
  }

  // ----- the theorems -----

  /** All usable credentials. */
  function Outstanding(a: Traced): (r: set<Owner>)
    ensures forall o :: o in r <==> Live(a, o)
  {
    var r :=
      (set x | x in a.s.t.logins && !IsReconnect(a.s.t.logins[x].request) :: Row(StateCred(x))) +
      (set x | x in a.s.t.codes :: Row(CodeCred(x))) +
      (set x | x in a.s.t.refresh && !a.s.t.refresh[x].revoked :: Row(RefreshCred(x))) +
      (set pid | pid in a.h.held :: Handler(pid));
    assert forall o :: o in r <==> Live(a, o) by { OutstandingIsLive(a, r); }
    r
  }

  lemma OutstandingIsLive(a: Traced, r: set<Owner>)
    requires r ==
      (set x | x in a.s.t.logins && !IsReconnect(a.s.t.logins[x].request) :: Row(StateCred(x))) +
      (set x | x in a.s.t.codes :: Row(CodeCred(x))) +
      (set x | x in a.s.t.refresh && !a.s.t.refresh[x].revoked :: Row(RefreshCred(x))) +
      (set pid | pid in a.h.held :: Handler(pid))
    ensures forall o :: o in r <==> Live(a, o)
  {
    forall o ensures o in r <==> Live(a, o) {
      match o
      case Row(StateCred(x)) =>
      case Row(CodeCred(x)) =>
      case Row(RefreshCred(x)) =>
      case Handler(pid) =>
    }
  }

  lemma {:induction false} FewerOwnersThanFamilies(a: Traced, owners: set<Owner>, n: nat)
    requires Tracked(a) && Linear(a)
    requires forall o :: o in owners ==> Live(a, o) && a.h.family[Owned(a, o)] < n
    ensures |owners| <= n
  {
    if n > 0 {
      if last :| last in owners && a.h.family[Owned(a, last)] == n - 1 {
        FewerOwnersThanFamilies(a, owners - {last}, n - 1);
      } else {
        FewerOwnersThanFamilies(a, owners, n - 1);
      }
    } else {
      assert forall o :: o !in owners;
    }
  }

  lemma EmptyInv(cfg: Config)
    ensures Inv(cfg, EMPTY)
  {}

  /** Session linearity. However handlers, purges, deletions and crashes interleave, an accepted
      authorize request never has two usable credentials, its credentials form a chain in which none
      has two successors and the usable one has none, and no more credentials are usable than authorize
      requests were accepted. */
  lemma SessionLinearity(cfg: Config, events: seq<Event>)
    requires FreshRun(cfg, EMPTY, events)
    ensures
      var a := WatchRun(cfg, EMPTY, events);
      && a.s == Run(cfg, EMPTY.s, events)
      && Tracked(a) && Linear(a) && Chained(a)
      && |Outstanding(a)| <= |a.h.requests|
  {
    EmptyInv(cfg);
    RunKeepsInv(cfg, EMPTY, events);
    HistoryOnlyWatches(cfg, EMPTY, events);
    var a := WatchRun(cfg, EMPTY, events);
    FewerOwnersThanFamilies(a, Outstanding(a), |a.h.requests|);
  }

  /** Provenance. Every code carries the client, redirect URI, challenge and resource of one accepted
      authorize request of a registered client; every refresh token carries the client of such a request
      and the tenant its code was issued to, and that code was redeemed by a verifier proving the
      challenge; a parked request without client is a reconnection link. */
  lemma Provenance(cfg: Config, events: seq<Event>)
    requires FreshRun(cfg, EMPTY, events)
    ensures
      var a := WatchRun(cfg, EMPTY, events);
      var t, h := a.s.t, a.h;
      && (forall x :: x in t.codes ==>
            && CodeCred(x) in h.family
            && var f := h.family[CodeCred(x)];
               f < |h.requests| && Accepted(cfg, t, h.requests[f]) && CodeMatches(h, f, t.codes[x]))
      && (forall x :: x in t.refresh ==>
            && RefreshCred(x) in h.family
            && var f := h.family[RefreshCred(x)];
               && f < |h.requests| && Accepted(cfg, t, h.requests[f])
               && SessionMatches(cfg, h, f, t.refresh[x].tenantID, t.refresh[x].clientID))
      && (forall x :: x in t.logins ==>
            if IsReconnect(t.logins[x].request) then t.logins[x].request == RECONNECT
            else Accepted(cfg, t, t.logins[x].request))
      && (forall c :: c in t.clients ==> WellRegistered(cfg, t.clients[c]))
  {
    EmptyInv(cfg);
    RunKeepsInv(cfg, EMPTY, events);
    var a := WatchRun(cfg, EMPTY, events);
    forall x | x in a.s.t.codes ensures RowOk(cfg, a, CodeCred(x)) {}
    forall x | x in a.s.t.refresh ensures RowOk(cfg, a, RefreshCred(x)) {}
    forall x | x in a.s.t.logins ensures RowOk(cfg, a, StateCred(x)) {}
  }

  /** A parked login without a client appears only through ReconnectURL, and no code has an empty client. */
  lemma ReconnectNeverYieldsCode(cfg: Config, a: Traced, e: Event)
    requires Inv(cfg, a) && FreshDraw(cfg, a, e)
    ensures var logins := Next(cfg, a.s, e).0.t.logins;
            forall x :: x in logins && x !in a.s.t.logins && IsReconnect(logins[x].request) ==>
              e.Start? && e.request == Reconnect(x)
    ensures forall x :: x in Next(cfg, a.s, e).0.t.codes ==> Next(cfg, a.s, e).0.t.codes[x].clientID != ""
  {
    WatchKeepsInv(cfg, a, e);
    var b := Watch(cfg, a, e);
    assert e.Step? ==> HandlerOk(cfg, a, e.pid);
    forall x | x in b.s.t.codes ensures b.s.t.codes[x].clientID != "" {
      assert RowOk(cfg, b, CodeCred(x));
    }
    forall x | x in b.s.t.logins && x !in a.s.t.logins && IsReconnect(b.s.t.logins[x].request)
      ensures e.Start? && e.request == Reconnect(x)
    {
      ParkedBy(cfg, a.s, e, x);
    }
  }

  /** Only two calls add a parked login. */
  lemma ParkedBy(cfg: Config, s: Sys, e: Event, x: string)
    requires x in Next(cfg, s, e).0.t.logins && x !in s.t.logins
    ensures Enabled(s, e)
    ensures
      || (e.Start? && e.request == Reconnect(x))
      || (e.Step? && s.procs[e.pid].Parking? && Next(cfg, s, e).0.t.logins[x].request == s.procs[e.pid].req)
  {
    if e.Start? {
      BeginParks(cfg, s.t, e.request, e.now, x);
    } else if e.Step? {
      ResumeParks(cfg, s.t, s.procs[e.pid], e.input, e.now, x);
    }
  }

  lemma BeginParks(cfg: Config, t: Tables, r: Request, now: Time, x: string)
    requires x in Begin(cfg, t, r, now).0.logins && x !in t.logins
    ensures r == Reconnect(x)
  {
    match r
    case Callback(_) =>
    case CodeGrant(_, _, _, _, _) =>
    case RefreshGrant(_, _) =>
    case Register(_, _, _) =>
    case _ =>
  }

  lemma ResumeParks(cfg: Config, t: Tables, p: Proc, input: Input, now: Time, x: string)
    requires x in Resume(cfg, t, p, input, now).0.logins && x !in t.logins
    ensures p.Parking? && Resume(cfg, t, p, input, now).0.logins[x].request == p.req
  {
    match p
    case Parking(_) =>
    case _ =>
  }

  /** Issued once, no longer usable: consumed, revoked, expired and purged, or deleted. */
  ghost predicate Spent(a: Traced, c: Cred) {
    c in a.h.family && !Live(a, Row(c))
  }

  /** A spent credential never becomes usable again, so each is honoured at most once in any run. */
  lemma {:induction false} SpentForever(cfg: Config, a: Traced, events: seq<Event>, c: Cred)
    requires Inv(cfg, a) && FreshRun(cfg, a, events) && Spent(a, c)
    ensures Spent(WatchRun(cfg, a, events), c)
    decreases |events|
  {
    if events != [] {
      WatchKeepsInv(cfg, a, events[0]);
      SpentStays(cfg, a, events[0], c);
      SpentForever(cfg, Watch(cfg, a, events[0]), events[1..], c);
    }
  }

  lemma SpentStays(cfg: Config, a: Traced, e: Event, c: Cred)
    requires FreshDraw(cfg, a, e) && Spent(a, c)
    ensures Spent(Watch(cfg, a, e), c)
  {
    if Enabled(a.s, e) {
      if e.Start? { StartRevivesNothing(cfg, a, e, c); }
      else if e.Step? { StepRevivesNothing(cfg, a, e, c); }
    }
  }

  lemma StartRevivesNothing(cfg: Config, a: Traced, e: Event, c: Cred)
    requires Enabled(a.s, e) && e.Start? && Spent(a, c)
    ensures Spent(Watch(cfg, a, e), c)
  {
    if e.request.Callback? || e.request.CodeGrant? || e.request.RefreshGrant? { ConsumingRevivesNothing(cfg, a, e, c); }
    else { OtherStartRevivesNothing(cfg, a, e, c); }
  }

  lemma ConsumingRevivesNothing(cfg: Config, a: Traced, e: Event, c: Cred)
    requires Enabled(a.s, e) && e.Start? && Spent(a, c)
    requires e.request.Callback? || e.request.CodeGrant? || e.request.RefreshGrant?
    ensures Spent(Watch(cfg, a, e), c)
  {
    match e.request
    case Callback(_) =>
    case CodeGrant(_, _, _, _, _) =>
    case RefreshGrant(_, _) =>
  }

  lemma OtherStartRevivesNothing(cfg: Config, a: Traced, e: Event, c: Cred)
    requires Enabled(a.s, e) && e.Start? && Spent(a, c)
    requires !e.request.Callback? && !e.request.CodeGrant? && !e.request.RefreshGrant?
    ensures Spent(Watch(cfg, a, e), c)
  {
    match e.request
    case Reconnect(_) =>
    case _ =>
  }

  lemma StepRevivesNothing(cfg: Config, a: Traced, e: Event, c: Cred)
    requires Enabled(a.s, e) && e.Step? && FreshDraw(cfg, a, e) && Spent(a, c)
    ensures Spent(Watch(cfg, a, e), c)
  {
    var p := a.s.procs[e.pid];
    if e.input.Secret? && (p.Parking? || p.Issuing? || p.Minting?) {
    } else {
      assert Watch(cfg, a, e).h.family == a.h.family;
      QuietResume(cfg, a.s.t, p, e.input, e.now, c);
      assert SameRow(a.s.t, Watch(cfg, a, e).s.t, c);
    }
  }

  /** Presenting a spent code or refresh token changes nothing and is refused as invalid_grant. */
  lemma SpentIsRefused(cfg: Config, a: Traced, r: Request, now: Time)
    requires r.CodeGrant? ==>
            Spent(a, CodeCred(r.code)) && r.code != "" && r.clientID != ""
            && MIN_VERIFIER_LEN <= |r.verifier| <= MAX_VERIFIER_LEN
    requires r.RefreshGrant? ==> Spent(a, RefreshCred(cfg.s256(r.token))) && r.token != "" && r.grantClientID != ""
    requires r.CodeGrant? || r.RefreshGrant?
    ensures Begin(cfg, a.s.t, r, now) == (a.s.t, Done(BadRequest(INVALID_GRANT)))
  {}
}
