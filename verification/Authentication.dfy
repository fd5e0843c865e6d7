/** Whose codes and tokens these are: the Meta user behind every session. */
module Authentication {
  import opened Domain
  import opened Storage
  import opened Session
  import opened Lineage

  /** The user a login ended with, and the tenant id it went on with. */
  datatype Identity = Identity(user: string, tenantID: string)

  /** The logins of the families of a run. */
  type Logins = map<nat, Identity>

  /** This event is the login of a client's callback. */
  ghost predicate LogsIn(cfg: Config, a: Traced, e: Event) {
    && Enabled(a.s, e) && e.Step? && a.s.procs[e.pid].LoggingIn? && !IsReconnect(a.s.procs[e.pid].req)
    && Call(cfg, a.s, e).1.Then? && Call(cfg, a.s, e).1.proc.Upserting?
  }

  ghost function Note(cfg: Config, a: Traced, logins: Logins, e: Event): Logins {
    if LogsIn(cfg, a, e) then
      var p := Call(cfg, a.s, e).1.proc;
      logins[FamilyOf(a.h, e.pid) := Identity(p.row.metaUserID, p.id)]
    else logins
  }

  ghost function NoteRun(cfg: Config, a: Traced, logins: Logins, events: seq<Event>): Logins
    decreases |events|
  {
    if events == [] then logins
        else NoteRun(cfg, Watch(cfg, a, events[0]), Note(cfg, a, logins, events[0]), events[1..])
  }

  /** A login is what the callback that burnt the family's state learnt from Meta: an allowed user, under the id that
      user is stored under, or a fresh one. */
  lemma LoginMeaning(cfg: Config, a: Traced, logins: Logins, e: Event)
    requires Inv(cfg, a) && Known(cfg, a, logins) && LogsIn(cfg, a, e)
    ensures e.pid in a.h.held && a.h.held[e.pid].StateCred? && a.h.held[e.pid] in a.h.family
            && FamilyOf(a.h, e.pid) !in logins
    ensures e.input.Login? && e.input.answer.User?
    ensures var l := Note(cfg, a, logins, e)[FamilyOf(a.h, e.pid)];
            && l.user == e.input.answer.metaUserID && l.user != "" && cfg.allowed(l.user)
            && l.tenantID == match TenantOf(a.s.t.tenants, l.user) case None => e.input.answer.newID case Some(id) => id
  {
    assert HandlerOk(cfg, a, e.pid) && HandlerKnown(a, logins, e.pid);
  }

  // ----- what is known about logins in every state -----

  predicate AfterLogin(p: Proc) { (p.Upserting? || p.Syncing? || p.Issuing?) && !IsReconnect(p.req) }

  /** A callback's handler holds a login state; its family has not logged in before it has, and afterwards it works
      for the id its family logged in under. */
  ghost predicate HandlerKnown(a: Traced, logins: Logins, pid: nat) {
    pid in a.s.procs && pid in a.h.held && a.h.held[pid] in a.h.family ==>
      var p, f := a.s.procs[pid], a.h.family[a.h.held[pid]];
      && (p.LoggingIn? || AfterLogin(p) ==> a.h.held[pid].StateCred?)
      && (p.LoggingIn? ==> f !in logins)
      && (AfterLogin(p) ==>
          f in logins && logins[f].tenantID == p.id && (p.Upserting? ==> logins[f].user == p.row.metaUserID))
  }

  /** A family whose state is still parked has not logged in. */
  ghost predicate StateKnown(a: Traced, logins: Logins, x: string) {
    x in a.s.t.logins && StateCred(x) in a.h.family && !IsReconnect(a.s.t.logins[x].request) ==>
        a.h.family[StateCred(x)] !in logins
  }

  ghost predicate FamiliesKnown(cfg: Config, a: Traced, logins: Logins) {
    && (forall f :: f in a.h.tenant ==> f in logins && logins[f].tenantID == a.h.tenant[f])
    && (forall f :: f in logins ==> f < |a.h.requests| && logins[f].user != "" && cfg.allowed(logins[f].user))
  }

  ghost predicate Known(cfg: Config, a: Traced, logins: Logins) {
    && FamiliesKnown(cfg, a, logins)
    && (forall pid :: HandlerKnown(a, logins, pid))
    && (forall x :: StateKnown(a, logins, x))
  }

  // ----- every event keeps it -----

  lemma StartKeepsFamilies(cfg: Config, a: Traced, logins: Logins, e: Event)
    requires FamiliesKnown(cfg, a, logins) && Enabled(a.s, e) && e.Start?
    ensures FamiliesKnown(cfg, Watch(cfg, a, e), logins)
  {
    RecordStartKeeps(cfg, a.h, e.pid, e.request, Call(cfg, a.s, e).1);
  }

  lemma StartKeepsStates(cfg: Config, a: Traced, logins: Logins, e: Event, x: string)
    requires Enabled(a.s, e) && e.Start? && StateKnown(a, logins, x)
    ensures StateKnown(Watch(cfg, a, e), logins, x)
  {
    var b := Watch(cfg, a, e);
    assert b.h.family == a.h.family;
    if x in b.s.t.logins && x !in a.s.t.logins { BeginParks(cfg, a.s.t, e.request, e.now, x); }
    else if x in b.s.t.logins { BeginKeepsLogin(cfg, a.s.t, e.request, e.now, x); }
  }

  lemma BeginKeepsLogin(cfg: Config, t: Tables, r: Request, now: Time, x: string)
    requires x in t.logins && x in Begin(cfg, t, r, now).0.logins
    ensures Begin(cfg, t, r, now).0.logins[x] == t.logins[x]
  {
    match r
    case Callback(_) =>
    case Reconnect(_) =>
    case _ =>
  }

  lemma RecordStartKeeps(cfg: Config, h: History, pid: nat, request: Request, o: Outcome)
    ensures var h' := RecordStart(h, cfg, pid, request, o);
            && h'.family == h.family && h'.tenant == h.tenant && h'.requests == h.requests
            && (forall p :: p != pid ==> (p in h'.held <==> p in h.held) && (p in h.held ==> h'.held[p] == h.held[p]))
  {
  }

  lemma StartLeavesOthers(cfg: Config, a: Traced, e: Event, pid: nat)
    requires Enabled(a.s, e) && e.Start? && pid != e.pid
    ensures var b := Watch(cfg, a, e);
            && b.h.family == a.h.family
            && (pid in b.s.procs <==> pid in a.s.procs) && (pid in a.s.procs ==> b.s.procs[pid] == a.s.procs[pid])
            && (pid in b.h.held <==> pid in a.h.held) && (pid in a.h.held ==> b.h.held[pid] == a.h.held[pid])
  {
    RecordStartKeeps(cfg, a.h, e.pid, e.request, Call(cfg, a.s, e).1);
    SettleLeavesOthers(a.s.procs, e.pid, Call(cfg, a.s, e).1, pid);
  }

  lemma SettleLeavesOthers(procs: map<nat, Proc>, pid: nat, o: Outcome, other: nat)
    requires other != pid
    ensures var after := Settle(procs, pid, o);
            && (other in after <==> other in procs)
            && (other in procs ==> after[other] == procs[other])
  {
  }

  lemma StartKeepsHandlers(cfg: Config, a: Traced, logins: Logins, e: Event, pid: nat)
    requires Inv(cfg, a) && Known(cfg, a, logins) && Enabled(a.s, e) && e.Start?
    ensures HandlerKnown(Watch(cfg, a, e), logins, pid)
  {
    if pid != e.pid {
      StartLeavesOthers(cfg, a, e, pid);
      assert HandlerKnown(a, logins, pid);
    } else {
      assert HandlerOk(cfg, a, e.pid);
      if e.request.Callback? { StartedCallback(cfg, a, logins, e); } else { StartedElse(cfg, a, e); }
    }
  }

  lemma StartedCallback(cfg: Config, a: Traced, logins: Logins, e: Event)
    requires Inv(cfg, a) && Known(cfg, a, logins) && Enabled(a.s, e) && e.Start? && e.request.Callback?
    requires e.pid !in a.h.held
    ensures HandlerKnown(Watch(cfg, a, e), logins, e.pid)
  {
    assert StateKnown(a, logins, e.request.state) && RowOk(cfg, a, StateCred(e.request.state));
  }

  lemma StartedElse(cfg: Config, a: Traced, e: Event)
    requires Enabled(a.s, e) && e.Start? && !e.request.Callback?
    ensures var procs := Next(cfg, a.s, e).0.procs; e.pid in procs ==>
            !procs[e.pid].LoggingIn? && !AfterLogin(procs[e.pid])
  {
    match e.request
    case CodeGrant(_, _, _, _, _) =>
    case RefreshGrant(_, _) =>
    case _ =>
  }

  lemma StartKeepsKnown(cfg: Config, a: Traced, logins: Logins, e: Event)
    requires Inv(cfg, a) && Known(cfg, a, logins) && Enabled(a.s, e) && e.Start?
    ensures Known(cfg, Watch(cfg, a, e), logins)
  {
    StartKeepsFamilies(cfg, a, logins, e);
    forall x ensures StateKnown(Watch(cfg, a, e), logins, x)
        { assert StateKnown(a, logins, x); StartKeepsStates(cfg, a, logins, e, x); }
    forall pid ensures HandlerKnown(Watch(cfg, a, e), logins, pid) { StartKeepsHandlers(cfg, a, logins, e, pid); }
  }

  /** A family logs in once: whoever owns it is the handler of this step. */
  lemma OnlyThisHandler(a: Traced, pid: nat, o: Owner)
    requires Tracked(a) && Linear(a) && pid in a.h.held && a.h.held[pid] in a.h.family && Live(a, o)
            && o != Handler(pid)
    ensures a.h.family[Owned(a, o)] != FamilyOf(a.h, pid)
  {
    assert Live(a, Handler(pid));
  }

  lemma RecordStepTenants(cfg: Config, h: History, t: Tables, pid: nat, p: Proc, input: Input, o: Outcome)
    ensures var h' := RecordStep(h, cfg, t, pid, p, input, o);
            && |h.requests| <= |h'.requests|
            && h'.tenant ==
                (if p.Issuing? && input.Secret? && input.drawn !in t.codes then h.tenant[FamilyOf(h, pid) := p.id]
                else h.tenant)
  {
  }

  lemma StepKeepsFamilies(cfg: Config, a: Traced, logins: Logins, e: Event)
    requires Inv(cfg, a) && Known(cfg, a, logins) && Enabled(a.s, e) && e.Step?
    ensures FamiliesKnown(cfg, Watch(cfg, a, e), Note(cfg, a, logins, e))
  {
    assert HandlerOk(cfg, a, e.pid) && HandlerKnown(a, logins, e.pid);
    RecordStepTenants(cfg, a.h, a.s.t, e.pid, a.s.procs[e.pid], e.input, Call(cfg, a.s, e).1);
    if LogsIn(cfg, a, e) { LoginMeaning(cfg, a, logins, e); }
  }

  lemma StepKeepsStates(cfg: Config, a: Traced, logins: Logins, e: Event, x: string)
    requires Inv(cfg, a) && Known(cfg, a, logins) && Enabled(a.s, e) && e.Step? && FreshDraw(cfg, a, e)
    ensures StateKnown(Watch(cfg, a, e), Note(cfg, a, logins, e), x)
  {
    var b := Watch(cfg, a, e);
    assert StateKnown(a, logins, x) && HandlerOk(cfg, a, e.pid);
    if x in b.s.t.logins && x !in a.s.t.logins {
      ResumeParks(cfg, a.s.t, a.s.procs[e.pid], e.input, e.now, x);
    } else if x in b.s.t.logins {
      ResumeKeepsLogin(cfg, a.s.t, a.s.procs[e.pid], e.input, e.now, x);
      if Live(a, Row(StateCred(x))) {
        StepKeepsFamilyOf(cfg, a, e, StateCred(x));
        OtherFamilyNotNoted(cfg, a, logins, e, Row(StateCred(x)));
      }
    }
  }

  lemma ResumeKeepsLogin(cfg: Config, t: Tables, p: Proc, input: Input, now: Time, x: string)
    requires x in t.logins && x in Resume(cfg, t, p, input, now).0.logins
    ensures Resume(cfg, t, p, input, now).0.logins[x] == t.logins[x]
  {
    match p
    case Parking(_) =>
    case _ =>
  }

  ghost predicate FreshCred(cfg: Config, h: History, p: Proc, input: Input) {
    input.Secret? ==>
      match p
      case Parking(_) => StateCred(input.drawn) !in h.family
      case Issuing(_, _) => CodeCred(input.drawn) !in h.family
      case Minting(_, _) => RefreshCred(cfg.s256(input.drawn)) !in h.family
      case _ => true
  }

  lemma RecordStepKeeps(cfg: Config, h: History, t: Tables, pid: nat, p: Proc, input: Input, o: Outcome)
    requires FreshCred(cfg, h, p, input)
    ensures var h' := RecordStep(h, cfg, t, pid, p, input, o);
            && (forall c :: c in h.family ==> c in h'.family && h'.family[c] == h.family[c])
            && (forall q :: q != pid ==> (q in h'.held <==> q in h.held) && (q in h.held ==> h'.held[q] == h.held[q]))
  {
  }

  /** A step changes nothing about any other handler. */
  lemma StepLeavesOthers(cfg: Config, a: Traced, e: Event, pid: nat)
    requires Enabled(a.s, e) && e.Step? && FreshDraw(cfg, a, e) && pid != e.pid
    ensures var b := Watch(cfg, a, e);
            && (pid in b.s.procs <==> pid in a.s.procs) && (pid in a.s.procs ==> b.s.procs[pid] == a.s.procs[pid])
            && (pid in b.h.held <==> pid in a.h.held) && (pid in a.h.held ==> b.h.held[pid] == a.h.held[pid])
  {
    var o := Call(cfg, a.s, e).1;
    RecordStepKeeps(cfg, a.h, a.s.t, e.pid, a.s.procs[e.pid], e.input, o);
    SettleLeavesOthers(a.s.procs, e.pid, o, pid);
  }

  lemma StepKeepsFamilyOf(cfg: Config, a: Traced, e: Event, c: Cred)
    requires Enabled(a.s, e) && e.Step? && FreshDraw(cfg, a, e) && c in a.h.family
    ensures var b := Watch(cfg, a, e); c in b.h.family && b.h.family[c] == a.h.family[c]
  {
    RecordStepKeeps(cfg, a.h, a.s.t, e.pid, a.s.procs[e.pid], e.input, Call(cfg, a.s, e).1);
  }

  lemma StepKeepsHandlers(cfg: Config, a: Traced, logins: Logins, e: Event, pid: nat)
    requires Inv(cfg, a) && Known(cfg, a, logins) && Enabled(a.s, e) && e.Step? && FreshDraw(cfg, a, e)
    ensures HandlerKnown(Watch(cfg, a, e), Note(cfg, a, logins, e), pid)
  {
    assert HandlerKnown(a, logins, pid);
    if pid == e.pid {
      OwnStepKnown(cfg, a, logins, e);
    } else {
      StepLeavesOthers(cfg, a, e, pid);
      if pid in a.h.held {
        assert Live(a, Handler(pid));
        StepKeepsFamilyOf(cfg, a, e, a.h.held[pid]);
        OtherFamilyNotNoted(cfg, a, logins, e, Handler(pid));
      }
    }
  }

  lemma OtherFamilyNotNoted(cfg: Config, a: Traced, logins: Logins, e: Event, o: Owner)
    requires Inv(cfg, a) && Known(cfg, a, logins) && Enabled(a.s, e) && e.Step? && Live(a, o) && o != Handler(e.pid)
    ensures var f := a.h.family[Owned(a, o)]; var noted := Note(cfg, a, logins, e);
            (f in noted <==> f in logins) && (f in logins ==> noted[f] == logins[f])
  {
    if LogsIn(cfg, a, e) {
      LoginMeaning(cfg, a, logins, e);
      OnlyThisHandler(a, e.pid, o);
    }
  }

  lemma OwnStepKnown(cfg: Config, a: Traced, logins: Logins, e: Event)
    requires Inv(cfg, a) && Known(cfg, a, logins) && Enabled(a.s, e) && e.Step? && FreshDraw(cfg, a, e)
    ensures HandlerKnown(Watch(cfg, a, e), Note(cfg, a, logins, e), e.pid)
  {
    assert HandlerKnown(a, logins, e.pid) && HandlerOk(cfg, a, e.pid);
    match a.s.procs[e.pid]
    case LoggingIn(_) =>
    case Upserting(_, _, _) =>
    case Syncing(_, _) =>
    case Issuing(_, _) =>
    case _ =>
  }

  lemma EventKeepsKnown(cfg: Config, a: Traced, logins: Logins, e: Event)
    requires Inv(cfg, a) && Known(cfg, a, logins) && FreshDraw(cfg, a, e)
    ensures Known(cfg, Watch(cfg, a, e), Note(cfg, a, logins, e))
  {
    if Enabled(a.s, e) {
      if e.Start? {
        StartKeepsKnown(cfg, a, logins, e);
      } else if e.Step? {
        StepKeepsFamilies(cfg, a, logins, e);
        forall x ensures StateKnown(Watch(cfg, a, e), Note(cfg, a, logins, e), x)
            { StepKeepsStates(cfg, a, logins, e, x); }
        forall pid ensures HandlerKnown(Watch(cfg, a, e), Note(cfg, a, logins, e), pid)
            { StepKeepsHandlers(cfg, a, logins, e, pid); }
      } else {
        forall x ensures StateKnown(Watch(cfg, a, e), logins, x) { assert StateKnown(a, logins, x); }
        forall pid ensures HandlerKnown(Watch(cfg, a, e), logins, pid) { assert HandlerKnown(a, logins, pid); }
      }
    }
  }

  lemma {:induction false} RunKeepsKnown(cfg: Config, a: Traced, logins: Logins, events: seq<Event>)
    requires Inv(cfg, a) && Known(cfg, a, logins) && FreshRun(cfg, a, events)
    ensures Known(cfg, WatchRun(cfg, a, events), NoteRun(cfg, a, logins, events))
    decreases |events|
  {
    if events != [] {
      WatchKeepsInv(cfg, a, events[0]);
      EventKeepsKnown(cfg, a, logins, events[0]);
      RunKeepsKnown(cfg, Watch(cfg, a, events[0]), Note(cfg, a, logins, events[0]), events[1..]);
    }
  }

  /** Whoever holds a code or a refresh token holds it for an allowed user: its tenant is the id under which that user
      logged in, in the one callback that burnt the login state of its family. */
  lemma Authenticated(cfg: Config, events: seq<Event>)
    requires FreshRun(cfg, EMPTY, events)
    ensures
      var a, logins := WatchRun(cfg, EMPTY, events), NoteRun(cfg, EMPTY, map[], events);
      && (forall x :: x in a.s.t.codes ==>
            && CodeCred(x) in a.h.family && a.h.family[CodeCred(x)] in logins
            && var l := logins[a.h.family[CodeCred(x)]];
               l.user != "" && cfg.allowed(l.user) && a.s.t.codes[x].tenantID == l.tenantID)
      && (forall x :: x in a.s.t.refresh ==>
            && RefreshCred(x) in a.h.family && a.h.family[RefreshCred(x)] in logins
            && var l := logins[a.h.family[RefreshCred(x)]];
               l.user != "" && cfg.allowed(l.user) && a.s.t.refresh[x].tenantID == l.tenantID)
  {
    EmptyInv(cfg);
    RunKeepsInv(cfg, EMPTY, events);
    RunKeepsKnown(cfg, EMPTY, map[], events);
    var a := WatchRun(cfg, EMPTY, events);
    forall x | x in a.s.t.codes ensures RowOk(cfg, a, CodeCred(x)) {}
    forall x | x in a.s.t.refresh ensures RowOk(cfg, a, RefreshCred(x)) {}
  }
}
