/** One user's pages never depend on what any other user does, with handlers interleaved at every store call. */
module Noninterference {
  import opened Domain
  import opened Storage
  import opened Session
  import opened PageLookup
  import opened Isolation

  /** User m, whose tenant ids are `ids` and whose logins, syncs and deletions have the request numbers `pids`. */
  datatype Self = Self(m: string, ids: set<string>, pids: iset<nat>)

  /** An event of the machine, or a tool call that looks a page up. */
  datatype Act = Do(event: Event) | Look(tenantID: string, query: Query)

  /** Whose act it is: only m's handlers log m in, sync m's pages and delete m, and fresh ids are drawn for m in
      `ids`. */
  predicate Proper(self: Self, e: Event) {
    match e
    case Start(pid, SyncTool(id), _) => id in self.ids <==> pid in self.pids
    case Start(pid, DataDeletion(who), _) => who == self.m <==> pid in self.pids
    case Step(pid, Login(User(who, _, _, newID)), _) =>
      (who == self.m <==> pid in self.pids) && (newID in self.ids <==> who == self.m)
    case _ => true
  }

  // ----- the system in which only m exists -----

  /** The handlers that matter to m: until its user is known a login is nobody's, afterwards it is its user's; of a
      sweep only m's tenants are left. */
  function Shadow(self: Self, p: Proc, own: bool): Option<Proc> {
    match p
    case Parking(_) => Some(p)
    case LoggingIn(_) => Some(p)
    case Minting(_, _) => None
    case Sweeping(todo) => if Mine(todo, self.ids) == [] then None else Some(Sweeping(Mine(todo, self.ids)))
    case _ => if own then Some(p) else None
  }

  ghost predicate ProcAlike(self: Self, s: Sys, u: Sys, pid: nat) {
    var shadow := if pid in s.procs then Shadow(self, s.procs[pid], pid in self.pids) else None;
    (pid in u.procs <==> shadow.Some?) && (pid in u.procs ==> u.procs[pid] == shadow.value)
  }

  /** What a handler carries is its user's. */
  ghost predicate Honest(self: Self, p: Proc, own: bool) {
    match p
    case Upserting(_, id, row) => (id in self.ids <==> own) && (row.metaUserID == self.m <==> own)
    case Syncing(_, id) => id in self.ids <==> own
    case SyncingTool(id) => id in self.ids <==> own
    case Deleting(id) => id in self.ids <==> own
    case Sweeping(todo) => Sorted(todo, self.m, self.ids)
    case _ => true
  }

  ghost predicate TablesAlike(self: Self, t: Tables, u: Tables) {
    && Alike(t, u, self.m, self.ids) && u.tenants.Keys <= self.ids
    && u.logins == t.logins && u.clients == t.clients
  }

  ghost predicate Related(self: Self, s: Sys, u: Sys) {
    && TablesAlike(self, s.t, u.t)
    && (forall pid :: pid in s.procs ==> Honest(self, s.procs[pid], pid in self.pids))
    && forall pid :: ProcAlike(self, s, u, pid)
  }

  // ----- erasing everybody else -----

  /** The requests that are kept whoever makes them: none of them concerns a tenant yet. */
  predicate Nobodys(r: Request) { r.Register? || r.Authorize? || r.Callback? || r.Reconnect? || r.Sweep? }

  /** What is left of an event of the full system: itself, nothing, or the end of a login that another user
      completes. */
  ghost function Erased(self: Self, s: Sys, e: Event): Option<Event> {
    if !Enabled(s, e) then None
    else
      match e
      case Start(pid, r, _) => if Nobodys(r) || (pid in self.pids && (r.SyncTool? || r.DataDeletion?)) then Some(e)
          else None
      case Step(pid, input, _) =>
        (match s.procs[pid]
         case Parking(_) => Some(e)
         case LoggingIn(_) =>
           if input.Login? && input.answer.User? && pid !in self.pids then Some(Abort(pid)) else Some(e)
         case Minting(_, _) => None
         case Sweeping(todo) => if input.Exchange? && todo != [] && todo[0].0 in self.ids then Some(e) else None
         case _ => if pid in self.pids then Some(e) else None)
      case _ => Some(e)
  }

  ghost function Erase(cfg: Config, self: Self, s: Sys, acts: seq<Act>): seq<Act>
    decreases |acts|
  {
    if acts == [] then []
    else
      match acts[0]
      case Look(id, _) => (if id in self.ids then [acts[0]] else []) + Erase(cfg, self, s, acts[1..])
      case Do(e) =>
        var left := Erased(self, s, e);
        (if left.Some? then [Do(left.value)] else []) + Erase(cfg, self, Next(cfg, s, e).0, acts[1..])
  }

  /** What m's tool calls get to see, in order. */
  ghost function Seen(cfg: Config, self: Self, s: Sys, acts: seq<Act>): seq<Resolved>
    decreases |acts|
  {
    if acts == [] then []
    else
      match acts[0]
      case Look(id, q) =>
        (if id in self.ids then [Resolve(PagesOf(s.t, id), q)] else []) + Seen(cfg, self, s, acts[1..])
      case Do(e) => Seen(cfg, self, Next(cfg, s, e).0, acts[1..])
  }

  ghost function After(cfg: Config, s: Sys, acts: seq<Act>): Sys
    decreases |acts|
  {
    if acts == [] then s
    else if acts[0].Look? then After(cfg, s, acts[1..])
    else After(cfg, Next(cfg, s, acts[0].event).0, acts[1..])
  }

  // ----- one store call in both systems -----

  /** Both calls leave m alone or treat m alike. */
  ghost predicate CallsAlike(self: Self, own: bool, c: (Tables, Outcome), d: (Tables, Outcome)) {
    && TablesAlike(self, c.0, d.0)
    && (c.1.Done? ==> d.1.Done?)
    && (c.1.Then? ==> Honest(self, c.1.proc, own))
    && (c.1.Then? ==> match Shadow(self, c.1.proc, own) case None => d.1.Done? case Some(q) => d.1 == Then(q))
  }

  /** The call changes nothing for m, and m sees as much of its handler as before. */
  ghost predicate Unseen(self: Self, own: bool, before: Option<Proc>, c: (Tables, Outcome), u: Tables) {
    && TablesAlike(self, c.0, u)
    && if c.1.Then? then Honest(self, c.1.proc, own) && Shadow(self, c.1.proc, own) == before else before.None?
  }

  lemma {:induction false} DueRowsMine(t: Tables, u: Tables, ids: set<string>, order: seq<string>, before: int,
      unchecked: int)
    requires u.tenants.Keys <= ids
    ensures Mine(DueRows(u, order, before, unchecked), ids) == DueRows(u, order, before, unchecked)
  {
    if order != [] {
      DueRowsMine(t, u, ids, order[1..], before, unchecked);
      MineCons(u, ids, order, before, unchecked);
    }
  }

  /** What is left of a sweep, and what is left of it for m. */
  lemma ContinueAlike(self: Self, own: bool, t: Tables, u: Tables, todo: seq<(string, TenantRow)>)
    requires TablesAlike(self, t, u) && Sorted(todo, self.m, self.ids)
    ensures CallsAlike(self, own, (t, Continue(todo)), (u, Continue(Mine(todo, self.ids))))
  {
  }

  lemma SweepStarts(self: Self, cfg: Config, t: Tables, u: Tables, order: seq<string>, window: Time, now: Time,
      own: bool)
    requires TablesAlike(self, t, u)
    ensures CallsAlike(self, own, Begin(cfg, t, Sweep(order, window), now), Begin(cfg, u, Sweep(order, window), now))
  {
    var before, unchecked := Unix(now + window), Unix(now - 7 * DAY);
    DueRowsAlike(t, u, self.m, self.ids, order, before, unchecked);
    DueRowsMine(t, u, self.ids, order, before, unchecked);
    DueRowsSorted(t, self.m, self.ids, order, before, unchecked);
    ContinueAlike(self, own, t, u, DueRows(t, order, before, unchecked));
  }

  lemma DeletionStarts(self: Self, cfg: Config, t: Tables, u: Tables, who: string, now: Time)
    requires TablesAlike(self, t, u)
    ensures who == self.m ==>
            CallsAlike(self, true, Begin(cfg, t, DataDeletion(who), now), Begin(cfg, u, DataDeletion(who), now))
    ensures who != self.m ==> Unseen(self, false, None, Begin(cfg, t, DataDeletion(who), now), u)
  {
    AlikeTenantOf(t.tenants, u.tenants, self.m, self.ids);
  }

  lemma LoginsDoNotMatter(self: Self, t: Tables, u: Tables, logins: map<string, LoginRow>)
    requires TablesAlike(self, t, u)
    ensures TablesAlike(self, t.(logins := logins), u.(logins := logins))
  {
  }

  lemma CallbackStarts(self: Self, cfg: Config, t: Tables, u: Tables, state: string, now: Time, own: bool)
    requires TablesAlike(self, t, u)
    ensures CallsAlike(self, own, BeginCallback(t, state, now), BeginCallback(u, state, now))
  {
    LoginsDoNotMatter(self, t, u, ConsumeLogin(t, state).0.logins);
    assert ConsumeLogin(t, state).0 == t.(logins := ConsumeLogin(t, state).0.logins);
    assert ConsumeLogin(u, state).0 == u.(logins := ConsumeLogin(t, state).0.logins);
  }

  lemma RegisterStarts(self: Self, cfg: Config, t: Tables, u: Tables, r: Request, now: Time, own: bool)
    requires TablesAlike(self, t, u) && (r.Register? || r.Authorize?)
    ensures CallsAlike(self, own, Begin(cfg, t, r, now), Begin(cfg, u, r, now))
  {
  }

  lemma ReconnectStarts(self: Self, t: Tables, u: Tables, drawn: string, now: Time, own: bool)
    requires TablesAlike(self, t, u)
    ensures CallsAlike(self, own, BeginReconnect(t, drawn, now), BeginReconnect(u, drawn, now))
  {
  }

  lemma NobodysStarts(self: Self, cfg: Config, t: Tables, u: Tables, r: Request, now: Time, own: bool)
    requires TablesAlike(self, t, u) && Nobodys(r)
    ensures CallsAlike(self, own, Begin(cfg, t, r, now), Begin(cfg, u, r, now))
  {
    if r.Sweep? { SweepStarts(self, cfg, t, u, r.rowOrder, r.window, now, own); }
    else if r.Callback? { CallbackStarts(self, cfg, t, u, r.state, now, own); }
    else if r.Reconnect? { ReconnectStarts(self, t, u, r.drawnState, now, own); }
    else { RegisterStarts(self, cfg, t, u, r, now, own); }
  }

  lemma GrantsAreUnseen(self: Self, cfg: Config, t: Tables, u: Tables, r: Request, now: Time, own: bool)
    requires TablesAlike(self, t, u) && (r.CodeGrant? || r.RefreshGrant?)
    ensures Unseen(self, own, None, Begin(cfg, t, r, now), u)
  {
  }

  lemma SyncStarts(self: Self, cfg: Config, t: Tables, u: Tables, id: string, now: Time)
    requires TablesAlike(self, t, u)
    ensures id in self.ids ==>
            CallsAlike(self, true, Begin(cfg, t, SyncTool(id), now), Begin(cfg, u, SyncTool(id), now))
    ensures id !in self.ids ==> Unseen(self, false, None, Begin(cfg, t, SyncTool(id), now), u)
  {
  }

  // ----- every later store call -----

  lemma OwnUpsert(self: Self, cfg: Config, t: Tables, u: Tables, p: Proc, input: Input, now: Time)
    requires TablesAlike(self, t, u) && Honest(self, p, true) && p.Upserting?
    ensures CallsAlike(self, true, Resume(cfg, t, p, input, now), Resume(cfg, u, p, input, now))
  {
    StoredAlike(t, u, self.m, self.ids, p.id, p.row);
  }

  lemma OwnPages(self: Self, cfg: Config, t: Tables, u: Tables, p: Proc, input: Input, now: Time)
    requires TablesAlike(self, t, u) && Honest(self, p, true) && (p.Syncing? || p.SyncingTool?)
    ensures CallsAlike(self, true, Resume(cfg, t, p, input, now), Resume(cfg, u, p, input, now))
  {
    if input.Accounts? && input.pages.Some? { PagesAlike(t, u, self.m, self.ids, p.id, input.pages.value); }
  }

  lemma OwnEnd(self: Self, cfg: Config, t: Tables, u: Tables, p: Proc, input: Input, now: Time)
    requires TablesAlike(self, t, u) && Honest(self, p, true) && (p.Deleting? || p.Issuing?)
    ensures CallsAlike(self, true, Resume(cfg, t, p, input, now), Resume(cfg, u, p, input, now))
  {
    if p.Deleting? { DeleteRowAlike(t, u, self.m, self.ids, p.id); }
  }

  /** m's own steps do the same in both systems. */
  lemma OwnStep(self: Self, cfg: Config, t: Tables, u: Tables, p: Proc, input: Input, now: Time)
    requires TablesAlike(self, t, u) && Honest(self, p, true)
    requires p.Upserting? || p.Syncing? || p.SyncingTool? || p.Deleting? || p.Issuing?
    ensures CallsAlike(self, true, Resume(cfg, t, p, input, now), Resume(cfg, u, p, input, now))
  {
    if p.Upserting? { OwnUpsert(self, cfg, t, u, p, input, now); }
    else if p.Deleting? || p.Issuing? { OwnEnd(self, cfg, t, u, p, input, now); }
    else { OwnPages(self, cfg, t, u, p, input, now); }
  }

  lemma OtherUpsert(self: Self, cfg: Config, t: Tables, u: Tables, p: Proc, input: Input, now: Time)
    requires TablesAlike(self, t, u) && Honest(self, p, false) && p.Upserting?
    ensures Unseen(self, false, None, Resume(cfg, t, p, input, now), u)
  {
    if UpsertTenant(t.tenants, p.id, p.row).Some? {
      UpsertUnnoticed(t.tenants, self.m, self.ids, p.id, p.row);
      UpsertKeepsUsers(t.tenants, self.m, self.ids, p.id, p.row);
    }
  }

  lemma OtherPages(self: Self, cfg: Config, t: Tables, u: Tables, p: Proc, input: Input, now: Time)
    requires TablesAlike(self, t, u) && Honest(self, p, false) && (p.Syncing? || p.SyncingTool?)
    ensures Unseen(self, false, None, Resume(cfg, t, p, input, now), u)
  {
    if input.Accounts? && input.pages.Some? { PagesUnnoticed(t, u, self.m, self.ids, p.id, input.pages.value); }
  }

  lemma OtherEnd(self: Self, cfg: Config, t: Tables, u: Tables, p: Proc, input: Input, now: Time)
    requires TablesAlike(self, t, u) && Honest(self, p, false) && (p.Deleting? || p.Issuing?)
    ensures Unseen(self, false, None, Resume(cfg, t, p, input, now), u)
  {
    if p.Deleting? { DeleteRowAlike(t, u, self.m, self.ids, p.id); }
  }

  /** Anybody else's change nothing for m. */
  lemma OtherStep(self: Self, cfg: Config, t: Tables, u: Tables, p: Proc, input: Input, now: Time)
    requires TablesAlike(self, t, u) && Honest(self, p, false)
    requires p.Upserting? || p.Syncing? || p.SyncingTool? || p.Deleting? || p.Issuing?
    ensures Unseen(self, false, None, Resume(cfg, t, p, input, now), u)
  {
    if p.Upserting? { OtherUpsert(self, cfg, t, u, p, input, now); }
    else if p.Deleting? || p.Issuing? { OtherEnd(self, cfg, t, u, p, input, now); }
    else { OtherPages(self, cfg, t, u, p, input, now); }
  }

  lemma MintStep(self: Self, cfg: Config, t: Tables, u: Tables, p: Proc, input: Input, now: Time, own: bool)
    requires TablesAlike(self, t, u) && p.Minting?
    ensures Unseen(self, own, None, Resume(cfg, t, p, input, now), u)
  {
  }

  lemma ParkStep(self: Self, cfg: Config, t: Tables, u: Tables, p: Proc, input: Input, now: Time, own: bool)
    requires TablesAlike(self, t, u) && p.Parking?
    ensures CallsAlike(self, own, Resume(cfg, t, p, input, now), Resume(cfg, u, p, input, now))
  {
  }

  /** A login of m, or of nobody. */
  lemma LoginStep(self: Self, cfg: Config, t: Tables, u: Tables, p: Proc, input: Input, now: Time, own: bool)
    requires TablesAlike(self, t, u) && p.LoggingIn?
    requires input.Login? && input.answer.User? ==>
            own && input.answer.metaUserID == self.m && input.answer.newID in self.ids
    ensures CallsAlike(self, own, Resume(cfg, t, p, input, now), Resume(cfg, u, p, input, now))
  {
    AlikeTenantOf(t.tenants, u.tenants, self.m, self.ids);
  }

  lemma OtherLogin(self: Self, cfg: Config, t: Tables, u: Tables, p: Proc, answer: LoginAnswer, now: Time)
    requires TablesAlike(self, t, u) && p.LoggingIn? && answer.User? && answer.metaUserID != self.m
            && answer.newID !in self.ids
    ensures Unseen(self, false, None, Resume(cfg, t, p, Login(answer), now), u)
  {
  }

  lemma MineCut(self: Self, todo: seq<(string, TenantRow)>)
    requires todo != []
    ensures todo[0].0 in self.ids ==> Mine(todo, self.ids) == [todo[0]] + Mine(todo[1..], self.ids)
    ensures todo[0].0 !in self.ids ==> Mine(todo, self.ids) == Mine(todo[1..], self.ids)
  {
  }

  /** A sweep comes to one of m's tenants: it does the same in both systems. */
  lemma SweepOwn(self: Self, cfg: Config, t: Tables, u: Tables, todo: seq<(string, TenantRow)>, input: Input,
      now: Time, own: bool)
    requires TablesAlike(self, t, u) && Sorted(todo, self.m, self.ids) && todo != [] && todo[0].0 in self.ids
            && input.Exchange?
    ensures Mine(todo, self.ids) != []
    ensures CallsAlike(self, own, Resume(cfg, t, Sweeping(todo), input, now),
            Resume(cfg, u, Sweeping(Mine(todo, self.ids)), input, now))
  {
    MineCut(self, todo);
    var mine := Mine(todo, self.ids);
    assert mine == [todo[0]] + Mine(todo[1..], self.ids) && mine[1..] == Mine(todo[1..], self.ids);
    OwnRenewal(self, t, u, todo[0].0, todo[0].1, input.renewed, now);
    var t', u' :=
        Renew(t, todo[0].0, todo[0].1, input.renewed, now), Renew(u, todo[0].0, todo[0].1, input.renewed, now);
    ContinueAlike(self, own, t', u', todo[1..]);
  }

  lemma OwnRenewal(self: Self, t: Tables, u: Tables, id: string, row: TenantRow, r: Option<LongLivedToken>, now: Time)
    requires TablesAlike(self, t, u) && id in self.ids && row.metaUserID == self.m
    ensures TablesAlike(self, Renew(t, id, row, r, now), Renew(u, id, row, r, now))
  {
    RenewAlike(t, u, self.m, self.ids, id, row, r, now);
    RenewKeepsRest(self, t, id, row, r, now);
    RenewKeepsRest(self, u, id, row, r, now);
  }

  lemma RenewKeepsRest(self: Self, t: Tables, id: string, row: TenantRow, r: Option<LongLivedToken>, now: Time)
    ensures var after := Renew(t, id, row, r, now);
            && after.logins == t.logins && after.clients == t.clients && after.pages == t.pages
            && after.tenants.Keys <= t.tenants.Keys + {id}
  {
  }

  lemma SweepOther(self: Self, cfg: Config, t: Tables, u: Tables, todo: seq<(string, TenantRow)>, input: Input,
      now: Time, own: bool)
    requires TablesAlike(self, t, u) && Sorted(todo, self.m, self.ids)
            && !(input.Exchange? && todo != [] && todo[0].0 in self.ids)
    ensures Unseen(self, own, Shadow(self, Sweeping(todo), own), Resume(cfg, t, Sweeping(todo), input, now), u)
  {
    if input.Exchange? && todo != [] {
      MineCut(self, todo);
      RenewUnnoticed(t, self.m, self.ids, todo[0].0, todo[0].1, input.renewed, now);
      RenewKeepsRest(self, t, todo[0].0, todo[0].1, input.renewed, now);
    }
  }

  // ----- one event -----

  lemma Settled(self: Self, s: Sys, u: Sys, pid: nat, c: (Tables, Outcome), d: (Tables, Outcome))
    requires Related(self, s, u) && CallsAlike(self, pid in self.pids, c, d)
    ensures Related(self, Sys(c.0, Settle(s.procs, pid, c.1)), Sys(d.0, Settle(u.procs, pid, d.1)))
  {
    var s', u' := Sys(c.0, Settle(s.procs, pid, c.1)), Sys(d.0, Settle(u.procs, pid, d.1));
    forall other ensures ProcAlike(self, s', u', other) { assert ProcAlike(self, s, u, other); }
  }

  lemma SettledUnseen(self: Self, s: Sys, u: Sys, pid: nat, c: (Tables, Outcome))
    requires Related(self, s, u)
    requires Unseen(self, pid in self.pids, if pid in s.procs then Shadow(self, s.procs[pid], pid in self.pids)
            else None, c, u.t)
    ensures Related(self, Sys(c.0, Settle(s.procs, pid, c.1)), u)
  {
    var s' := Sys(c.0, Settle(s.procs, pid, c.1));
    forall other ensures ProcAlike(self, s', u, other) { assert ProcAlike(self, s, u, other); }
  }

  /** A login that another user completes is over for m. */
  lemma SettledAway(self: Self, s: Sys, u: Sys, pid: nat, c: (Tables, Outcome))
    requires Related(self, s, u) && Unseen(self, pid in self.pids, None, c, u.t)
    ensures Related(self, Sys(c.0, Settle(s.procs, pid, c.1)), u.(procs := u.procs - {pid}))
  {
    var s', u' := Sys(c.0, Settle(s.procs, pid, c.1)), u.(procs := u.procs - {pid});
    forall other ensures ProcAlike(self, s', u', other) { assert ProcAlike(self, s, u, other); }
  }

  ghost function Apply(cfg: Config, u: Sys, left: Option<Event>): Sys {
    if left.Some? then Next(cfg, u, left.value).0 else u
  }

  lemma StartRelated(self: Self, cfg: Config, s: Sys, u: Sys, e: Event)
    requires Related(self, s, u) && Proper(self, e) && e.Start? && Enabled(s, e)
    ensures Related(self, Next(cfg, s, e).0, Apply(cfg, u, Erased(self, s, e)))
  {
    var r, own, c, d :=
        e.request, e.pid in self.pids, Begin(cfg, s.t, e.request, e.now), Begin(cfg, u.t, e.request, e.now);
    assert ProcAlike(self, s, u, e.pid);
    if Nobodys(r) {
      NobodysStarts(self, cfg, s.t, u.t, r, e.now, own);
      Settled(self, s, u, e.pid, c, d);
    } else if r.CodeGrant? || r.RefreshGrant? {
      GrantsAreUnseen(self, cfg, s.t, u.t, r, e.now, own);
      SettledUnseen(self, s, u, e.pid, c);
    } else {
      if r.SyncTool? { SyncStarts(self, cfg, s.t, u.t, r.tenantID, e.now); }
      else { DeletionStarts(self, cfg, s.t, u.t, r.metaUserID, e.now); }
      if own { Settled(self, s, u, e.pid, c, d); } else { SettledUnseen(self, s, u, e.pid, c); }
    }
  }

  lemma StepRelated(self: Self, cfg: Config, s: Sys, u: Sys, e: Event)
    requires Related(self, s, u) && Proper(self, e) && e.Step? && Enabled(s, e)
    ensures Related(self, Next(cfg, s, e).0, Apply(cfg, u, Erased(self, s, e)))
  {
    var p, own, c := s.procs[e.pid], e.pid in self.pids, Resume(cfg, s.t, s.procs[e.pid], e.input, e.now);
    assert ProcAlike(self, s, u, e.pid) && Honest(self, p, own);
    if p.Parking? {
      ParkStep(self, cfg, s.t, u.t, p, e.input, e.now, own);
      Settled(self, s, u, e.pid, c, Resume(cfg, u.t, p, e.input, e.now));
    } else if p.LoggingIn? {
      if e.input.Login? && e.input.answer.User? && !own {
        OtherLogin(self, cfg, s.t, u.t, p, e.input.answer, e.now);
        SettledAway(self, s, u, e.pid, c);
      } else {
        LoginStep(self, cfg, s.t, u.t, p, e.input, e.now, own);
        Settled(self, s, u, e.pid, c, Resume(cfg, u.t, p, e.input, e.now));
      }
    } else if p.Minting? {
      MintStep(self, cfg, s.t, u.t, p, e.input, e.now, own);
      SettledUnseen(self, s, u, e.pid, c);
    } else if p.Sweeping? {
      if e.input.Exchange? && p.todo != [] && p.todo[0].0 in self.ids {
        SweepOwn(self, cfg, s.t, u.t, p.todo, e.input, e.now, own);
        Settled(self, s, u, e.pid, c, Resume(cfg, u.t, Sweeping(Mine(p.todo, self.ids)), e.input, e.now));
      } else {
        SweepOther(self, cfg, s.t, u.t, p.todo, e.input, e.now, own);
        SettledUnseen(self, s, u, e.pid, c);
      }
    } else if own {
      OwnStep(self, cfg, s.t, u.t, p, e.input, e.now);
      Settled(self, s, u, e.pid, c, Resume(cfg, u.t, p, e.input, e.now));
    } else {
      OtherStep(self, cfg, s.t, u.t, p, e.input, e.now);
      SettledUnseen(self, s, u, e.pid, c);
    }
  }

  lemma EventRelated(self: Self, cfg: Config, s: Sys, u: Sys, e: Event)
    requires Related(self, s, u) && Proper(self, e)
    ensures Related(self, Next(cfg, s, e).0, Apply(cfg, u, Erased(self, s, e)))
  {
    if Enabled(s, e) {
      if e.Start? { StartRelated(self, cfg, s, u, e); }
      else if e.Step? { StepRelated(self, cfg, s, u, e); }
      else {
        var s', u' := Next(cfg, s, e).0, Next(cfg, u, e).0;
        forall pid ensures ProcAlike(self, s', u', pid) { assert ProcAlike(self, s, u, pid); }
      }
    }
  }

  // ----- whole runs -----

  lemma LookFirst(self: Self, cfg: Config, u: Sys, act: Act, rest: seq<Act>)
    requires act.Look?
    ensures Seen(cfg, self, u, [act] + rest) ==
            (if act.tenantID in self.ids then [Resolve(PagesOf(u.t, act.tenantID), act.query)]
                else []) + Seen(cfg, self, u, rest)
    ensures After(cfg, u, [act] + rest) == After(cfg, u, rest)
    ensures Erase(cfg, self, u, [act] + rest) ==
            (if act.tenantID in self.ids then [act] else []) + Erase(cfg, self, u, rest)
  {
    assert ([act] + rest)[1..] == rest;
  }

  lemma DoFirst(self: Self, cfg: Config, u: Sys, e: Event, rest: seq<Act>)
    ensures Seen(cfg, self, u, [Do(e)] + rest) == Seen(cfg, self, Next(cfg, u, e).0, rest)
    ensures After(cfg, u, [Do(e)] + rest) == After(cfg, Next(cfg, u, e).0, rest)
    ensures Erase(cfg, self, u, [Do(e)] + rest) ==
            (var left := Erased(self, u, e); if left.Some? then [Do(left.value)]
                else []) + Erase(cfg, self, Next(cfg, u, e).0, rest)
  {
    assert ([Do(e)] + rest)[1..] == rest;
  }

  lemma LookRelated(self: Self, cfg: Config, s: Sys, u: Sys, act: Act, rest: seq<Act>)
    requires act.Look? && Related(self, s, u)
    requires var erased := Erase(cfg, self, s, rest);
             Seen(cfg, self, s, rest) == Seen(cfg, self, u, erased)
                 && Related(self, After(cfg, s, rest), After(cfg, u, erased))
    ensures var erased := Erase(cfg, self, s, [act] + rest);
            && Seen(cfg, self, s, [act] + rest) == Seen(cfg, self, u, erased)
            && Related(self, After(cfg, s, [act] + rest), After(cfg, u, erased))
  {
    var erased := Erase(cfg, self, s, rest);
    LookFirst(self, cfg, s, act, rest);
    if act.tenantID in self.ids {
      AlikeViews(s.t, u.t, self.m, self.ids, act.tenantID);
      LookFirst(self, cfg, u, act, erased);
    } else {
      assert [] + erased == erased;
    }
  }

  lemma DoRelated(self: Self, cfg: Config, s: Sys, u: Sys, e: Event, rest: seq<Act>)
    requires var s', u' := Next(cfg, s, e).0, Apply(cfg, u, Erased(self, s, e));
             var erased := Erase(cfg, self, s', rest);
             Seen(cfg, self, s', rest) == Seen(cfg, self, u', erased)
                 && Related(self, After(cfg, s', rest), After(cfg, u', erased))
    ensures var erased := Erase(cfg, self, s, [Do(e)] + rest);
            && Seen(cfg, self, s, [Do(e)] + rest) == Seen(cfg, self, u, erased)
            && Related(self, After(cfg, s, [Do(e)] + rest), After(cfg, u, erased))
  {
    var left, erased := Erased(self, s, e), Erase(cfg, self, Next(cfg, s, e).0, rest);
    DoFirst(self, cfg, s, e, rest);
    if left.Some? { DoFirst(self, cfg, u, left.value, erased); } else { assert [] + erased == erased; }
  }

  lemma {:induction false} RunsRelated(self: Self, cfg: Config, s: Sys, u: Sys, acts: seq<Act>)
    requires Related(self, s, u) && forall i :: 0 <= i < |acts| && acts[i].Do? ==> Proper(self, acts[i].event)
    ensures Seen(cfg, self, s, acts) == Seen(cfg, self, u, Erase(cfg, self, s, acts))
    ensures Related(self, After(cfg, s, acts), After(cfg, u, Erase(cfg, self, s, acts)))
    decreases |acts|
  {
    if acts != [] {
      var rest := acts[1..];
      assert acts == [acts[0]] + rest;
      if acts[0].Look? {
        RunsRelated(self, cfg, s, u, rest);
        LookRelated(self, cfg, s, u, acts[0], rest);
      } else {
        var e := acts[0].event;
        EventRelated(self, cfg, s, u, e);
        RunsRelated(self, cfg, Next(cfg, s, e).0, Apply(cfg, u, Erased(self, s, e)), rest);
        DoRelated(self, cfg, s, u, e, rest);
      }
    }
  }

  /** The database without anybody else. */
  function Alone(self: Self, t: Tables): Tables {
    t.(tenants := map i | i in t.tenants && i in self.ids :: t.tenants[i],
       pages := map k | k in t.pages && k.tenantID in self.ids :: t.pages[k])
  }

  /** Noninterference. However handlers interleave, user m's tools resolve to the same pages with the same tokens, and
      m's page lists end the same, as in a system where nobody else was ever stored, logs in, synchronizes, is renewed
      or is deleted. */
  lemma AsIfAlone(self: Self, cfg: Config, t: Tables, acts: seq<Act>)
    requires Private(t, self.m, self.ids) && forall i :: 0 <= i < |acts| && acts[i].Do? ==> Proper(self, acts[i].event)
    ensures var s, u := Sys(t, map[]), Sys(Alone(self, t), map[]);
            var alone := Erase(cfg, self, s, acts);
            && Seen(cfg, self, s, acts) == Seen(cfg, self, u, alone)
            && (forall id :: id in self.ids ==>
                PagesOf(After(cfg, s, acts).t, id) == PagesOf(After(cfg, u, alone).t, id))
            && After(cfg, u, alone).t.tenants.Keys <= self.ids
  {
    var s, u := Sys(t, map[]), Sys(Alone(self, t), map[]);
    var alone := Erase(cfg, self, s, acts);
    assert Related(self, s, u) by { forall pid ensures ProcAlike(self, s, u, pid) {} }
    RunsRelated(self, cfg, s, u, acts);
    forall id | id in self.ids ensures PagesOf(After(cfg, s, acts).t, id) == PagesOf(After(cfg, u, alone).t, id) {
      AlikeViews(After(cfg, s, acts).t, After(cfg, u, alone).t, self.m, self.ids, id);
    }
  }
}
