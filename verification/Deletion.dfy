/** A deleted tenant stays deleted, and exactly which handlers in flight can bring something back. */
module Deletion {
  import opened Domain
  import opened Storage
  import opened Session

  /** Nothing is stored for this tenant id. */
  ghost predicate NoRows(t: Tables, id: string) {
    && id !in t.tenants
    && (forall k :: k in t.pages ==> k.tenantID != id)
    && (forall c :: c in t.codes ==> t.codes[c].tenantID != id)
    && (forall h :: h in t.refresh ==> t.refresh[h].tenantID != id)
  }

  /** A handler that read the tenant before it was deleted and will still write for it. */
  predicate Remembers(p: Proc, id: string) {
    match p
    case Upserting(_, i, _) => i == id
    case Syncing(req, i) => i == id && !IsReconnect(req)
    case Issuing(_, i) => i == id
    case Minting(i, _) => i == id
    case Sweeping(todo) => exists k :: 0 <= k < |todo| && todo[k].0 == id
    case _ => false
  }

  ghost predicate Remembered(s: Sys, id: string) {
    exists pid :: pid in s.procs && Remembers(s.procs[pid], id)
  }

  /** Tenant ids are random uuids: no later first login draws this one again. */
  predicate NeverDrawn(events: seq<Event>, id: string) {
    forall i :: 0 <= i < |events| && events[i].Step? && events[i].input.Login? && events[i].input.answer.User? ==>
      events[i].input.answer.newID != id
  }

  /** Every secret is 32 random bytes in base64url without padding. */
  const SECRET_LEN := 43

  predicate WellDrawn(events: seq<Event>) {
    forall i :: 0 <= i < |events| ==>
      match events[i]
      case Start(_, Register(_, _, drawnID), _) => |drawnID| == SECRET_LEN
      case Start(_, Reconnect(drawnState), _) => |drawnState| == SECRET_LEN
      case Step(_, Secret(drawn), _) => |drawn| == SECRET_LEN
      case _ => true
  }

  /** A run as it may really happen after the id has gone out of use. */
  predicate Plausible(events: seq<Event>, id: string) { NeverDrawn(events, id) && WellDrawn(events) }

  function AnySecret(): (s: string)
    ensures |s| == SECRET_LEN
  {
    seq(SECRET_LEN, i => 'A')
  }

  ghost predicate Forgotten(s: Sys, id: string) {
    NoRows(s.t, id) && !Remembered(s, id)
  }

  lemma DeleteForgets(t: Tables, id: string)
    ensures NoRows(DeleteTenant(t, id), id)
  {}

  // ----- forgotten for ever -----

  lemma BeginStoresNothing(cfg: Config, t: Tables, r: Request, now: Time, id: string)
    requires NoRows(t, id)
    ensures NoRows(Begin(cfg, t, r, now).0, id)
  {
    if r.RefreshGrant? { RotationStoresNothing(cfg, t, r.token, r.grantClientID, now, id); return; }
    if r.CodeGrant? { RedemptionStoresNothing(cfg, t, r, now, id); return; }
    OtherStartsStoreAlike(cfg, t, r, now);
  }

  lemma OtherStartsStoreAlike(cfg: Config, t: Tables, r: Request, now: Time)
    requires !r.RefreshGrant? && !r.CodeGrant?
    ensures var t' := Begin(cfg, t, r, now).0;
            t'.tenants == t.tenants && t'.pages == t.pages && t'.codes == t.codes && t'.refresh == t.refresh
  {
    match r
    case Callback(_) =>
    case Register(_, _, _) =>
    case _ =>
  }

  lemma RotationStoresNothing(cfg: Config, t: Tables, token: string, clientID: string, now: Time, id: string)
    requires NoRows(t, id)
    ensures NoRows(BeginRefreshGrant(cfg, t, token, clientID, now).0, id)
  {}

  lemma RedemptionStoresNothing(cfg: Config, t: Tables, r: Request, now: Time, id: string)
    requires NoRows(t, id) && r.CodeGrant?
    ensures NoRows(BeginCodeGrant(cfg, t, r, now).0, id)
  {}

  lemma BeginRemembersNothing(cfg: Config, t: Tables, r: Request, now: Time, id: string)
    requires NoRows(t, id)
    ensures var o := Begin(cfg, t, r, now).1; o.Then? ==> !Remembers(o.proc, id)
  {
    match r
    case CodeGrant(_, _, _, _, _) =>
    case RefreshGrant(_, _) =>
    case _ =>
  }

  lemma StartKeepsForgotten(cfg: Config, s: Sys, e: Event, id: string)
    requires Forgotten(s, id) && e.Start? && Enabled(s, e)
    ensures Forgotten(Next(cfg, s, e).0, id)
    ensures forall clientID :: Call(cfg, s, e).1 != Then(Minting(id, clientID))
  {
    BeginStoresNothing(cfg, s.t, e.request, e.now, id);
    BeginRemembersNothing(cfg, s.t, e.request, e.now, id);
    assert forall clientID :: Remembers(Minting(id, clientID), id);
  }

  lemma StepKeepsForgotten(cfg: Config, s: Sys, e: Event, id: string)
    requires Forgotten(s, id) && e.Step? && Enabled(s, e) && NeverDrawn([e], id)
    ensures Forgotten(Next(cfg, s, e).0, id)
    ensures forall clientID :: Call(cfg, s, e).1 != Then(Minting(id, clientID))
  {
    var p := s.procs[e.pid];
    assert !Remembers(p, id);
    assert e == [e][0];
    var (t, o) := Call(cfg, s, e);
    ResumeKeepsForgotten(cfg, s.t, p, e.input, e.now, id);
  }

  lemma ResumeKeepsForgotten(cfg: Config, t: Tables, p: Proc, input: Input, now: Time, id: string)
    requires NoRows(t, id) && !Remembers(p, id)
    requires input.Login? && input.answer.User? ==> input.answer.newID != id
    ensures NoRows(Resume(cfg, t, p, input, now).0, id)
    ensures var o := Resume(cfg, t, p, input, now).1; o.Then? ==>
            !Remembers(o.proc, id) && (p == o.proc || !o.proc.Minting?)
  {
    ResumeStoresNothing(cfg, t, p, input, now, id);
    ResumeRemembersNothing(cfg, t, p, input, now, id);
  }

  lemma SyncStoresNothing(cfg: Config, t: Tables, p: Proc, input: Input, now: Time, id: string)
    requires NoRows(t, id) && (p.Syncing? || p.SyncingTool?)
    ensures NoRows(Resume(cfg, t, p, input, now).0, id)
  {
    StorePagesKeepsNoRows(t, p.id, input, id);
  }

  lemma UpsertKeepsAbsent(tenants: map<string, TenantRow>, other: string, row: TenantRow, id: string)
    requires id !in tenants && id != other && UpsertTenant(tenants, other, row).Some?
    ensures id !in UpsertTenant(tenants, other, row).value
  {
  }

  lemma WriteStoresNothing(cfg: Config, t: Tables, p: Proc, input: Input, now: Time, id: string)
    requires NoRows(t, id) && !Remembers(p, id) && (p.Upserting? || p.Sweeping?)
    ensures NoRows(Resume(cfg, t, p, input, now).0, id)
  {
    if p.Upserting? {
      if UpsertTenant(t.tenants, p.id, p.row).Some? { UpsertKeepsAbsent(t.tenants, p.id, p.row, id); }
    } else if p.todo != [] && input.Exchange? && input.renewed.Some? {
      assert p.todo[0].0 != id;
      var row := Renewed(p.todo[0].1, input.renewed.value, now);
      if UpsertTenant(t.tenants, p.todo[0].0, row).Some? { UpsertKeepsAbsent(t.tenants, p.todo[0].0, row, id); }
    }
  }

  lemma ResumeStoresNothing(cfg: Config, t: Tables, p: Proc, input: Input, now: Time, id: string)
    requires NoRows(t, id) && !Remembers(p, id)
    ensures NoRows(Resume(cfg, t, p, input, now).0, id)
  {
    if p.Syncing? || p.SyncingTool? { SyncStoresNothing(cfg, t, p, input, now, id); }
    else if p.Upserting? || p.Sweeping? { WriteStoresNothing(cfg, t, p, input, now, id); }
  }

  lemma ResumeRemembersNothing(cfg: Config, t: Tables, p: Proc, input: Input, now: Time, id: string)
    requires NoRows(t, id) && !Remembers(p, id)
    requires input.Login? && input.answer.User? ==> input.answer.newID != id
    ensures var o := Resume(cfg, t, p, input, now).1; o.Then? ==>
            !Remembers(o.proc, id) && (p == o.proc || !o.proc.Minting?)
  {
    match p
    case Sweeping(todo) => if todo != [] { assert forall k :: 0 <= k < |todo| - 1 ==> todo[1..][k] == todo[k + 1]; }
    case _ =>
  }

  lemma StorePagesKeepsNoRows(t: Tables, i: string, input: Input, id: string)
    requires NoRows(t, id)
    ensures input.Accounts? && input.pages.Some? && ReplacePages(t, i, input.pages.value).Some? ==>
              forall k :: k in ReplacePages(t, i, input.pages.value).value ==> k.tenantID != id
  {
    if input.Accounts? && input.pages.Some? {
      InsertPagesMeaning(t, PagesWithout(t.pages, i), i, input.pages.value);
    }
  }

  lemma {:induction false} ForgottenForever(cfg: Config, s: Sys, events: seq<Event>, id: string)
    requires Forgotten(s, id) && NeverDrawn(events, id)
    ensures Forgotten(Run(cfg, s, events), id)
    decreases |events|
  {
    if events != [] {
      EventKeepsForgotten(cfg, s, events[0], id);
      assert NeverDrawn(events[1..], id);
      ForgottenForever(cfg, Next(cfg, s, events[0]).0, events[1..], id);
    }
  }

  lemma EventKeepsForgotten(cfg: Config, s: Sys, e: Event, id: string)
    requires Forgotten(s, id) && NeverDrawn([e], id)
    ensures Forgotten(Next(cfg, s, e).0, id)
  {
    if Enabled(s, e) {
      if e.Start? { StartKeepsForgotten(cfg, s, e, id); }
      else if e.Step? { StepKeepsForgotten(cfg, s, e, id); }
    }
  }

  // ----- what a handler in flight can bring back -----

  /** Meta names every user: a login without a user id is refused. */
  ghost predicate NamedUsers(s: Sys) {
    && (forall i :: i in s.t.tenants ==> s.t.tenants[i].metaUserID != "")
    && (forall pid :: pid in s.procs ==> NamedProc(s.procs[pid]))
  }

  predicate NamedProc(p: Proc) {
    && (p.Upserting? ==> p.row.metaUserID != "")
    && (p.Sweeping? ==> forall k :: 0 <= k < |p.todo| ==> p.todo[k].1.metaUserID != "")
  }

  /** Every reachable state meets what DeletionIsFinal asks for. */
  lemma {:induction false} NamedForever(cfg: Config, s: Sys, events: seq<Event>)
    requires Sound(s.t) && NamedUsers(s)
    ensures Sound(Run(cfg, s, events).t) && NamedUsers(Run(cfg, s, events))
    decreases |events|
  {
    if events != [] {
      EventKeepsNamed(cfg, s, events[0]);
      NamedForever(cfg, Next(cfg, s, events[0]).0, events[1..]);
    }
  }

  lemma EventKeepsNamed(cfg: Config, s: Sys, e: Event)
    requires Sound(s.t) && NamedUsers(s)
    ensures Sound(Next(cfg, s, e).0.t) && NamedUsers(Next(cfg, s, e).0)
  {
    IdentityIsStable(cfg, s, e);
    if Enabled(s, e) {
      if e.Start? { StartKeepsNamed(cfg, s, e); }
      else if e.Step? { StepKeepsNamed(cfg, s, e); }
    }
  }

  lemma BeginKeepsNamed(cfg: Config, t: Tables, r: Request, now: Time)
    requires forall i :: i in t.tenants ==> t.tenants[i].metaUserID != ""
    ensures Begin(cfg, t, r, now).0.tenants == t.tenants
    ensures var o := Begin(cfg, t, r, now).1; o.Then? ==> NamedProc(o.proc)
  {
    match r
    case Callback(_) =>
    case CodeGrant(_, _, _, _, _) =>
    case RefreshGrant(_, _) =>
    case Register(_, _, _) =>
    case _ =>
  }

  lemma StartKeepsNamed(cfg: Config, s: Sys, e: Event)
    requires NamedUsers(s) && e.Start? && Enabled(s, e)
    ensures NamedUsers(Next(cfg, s, e).0)
  {
    BeginKeepsNamed(cfg, s.t, e.request, e.now);
  }

  lemma StepKeepsNamedTenants(cfg: Config, t: Tables, p: Proc, input: Input, now: Time)
    requires Sound(t) && NamedProc(p) && forall i :: i in t.tenants ==> t.tenants[i].metaUserID != ""
    ensures var after := Resume(cfg, t, p, input, now).0.tenants; forall i :: i in after ==> after[i].metaUserID != ""
  {
    var edit := StepPerforms(cfg, t, p, input, now);
    if edit.Upserted? { UpsertKeepsIdentity(t.tenants, edit.id, edit.row); }
  }

  lemma StepKeepsNamedProc(cfg: Config, t: Tables, p: Proc, input: Input, now: Time)
    requires NamedProc(p)
    ensures var o := Resume(cfg, t, p, input, now).1; o.Then? ==> NamedProc(o.proc)
  {
    match p
    case Sweeping(todo) => assert todo != [] ==> forall k :: 0 <= k < |todo| - 1 ==> todo[1..][k] == todo[k + 1];
    case _ =>
  }

  lemma StepKeepsNamed(cfg: Config, s: Sys, e: Event)
    requires Sound(s.t) && NamedUsers(s) && e.Step? && Enabled(s, e)
    ensures NamedUsers(Next(cfg, s, e).0)
  {
    assert NamedProc(s.procs[e.pid]);
    StepKeepsNamedTenants(cfg, s.t, s.procs[e.pid], e.input, e.now);
    StepKeepsNamedProc(cfg, s.t, s.procs[e.pid], e.input, e.now);
  }

  lemma {:induction false} LaterThanAll(keys: set<string>, deadline: map<string, int>) returns (now: Time)
    requires keys <= deadline.Keys
    ensures forall k :: k in keys ==> deadline[k] <= Unix(now)
  {
    if keys == {} {
      now := 0;
    } else {
      var k :| k in keys;
      var rest := LaterThanAll(keys - {k}, deadline);
      now := if Unix(rest) < deadline[k] then Instant(deadline[k]) else rest;
    }
  }

  lemma {:induction false} UnusedPid(taken: set<nat>) returns (pid: nat)
    ensures forall k :: k in taken ==> k < pid
  {
    if taken == {} {
      pid := 0;
    } else {
      var k :| k in taken;
      var rest := UnusedPid(taken - {k});
      pid := if rest <= k then k + 1 else rest;
      assert forall x :: x in taken ==> x == k || x in taken - {k};
    }
  }

  lemma MintingRevives(cfg: Config, s: Sys, pid: nat, id: string) returns (events: seq<Event>)
    requires pid in s.procs && s.procs[pid].Minting? && s.procs[pid].id == id
    ensures Plausible(events, id) && !NoRows(Run(cfg, s, events).t, id)
  {
    var now := LaterThanAll(s.t.refresh.Keys, map h | h in s.t.refresh :: s.t.refresh[h].expiresAt);
    var purge, mint := PurgeRefreshAt(now), Step(pid, Secret(AnySecret()), now);
    events := [purge, mint];
    var s1 := Next(cfg, s, purge).0;
    assert s1.t.refresh == map[];
    var s2 := Next(cfg, s1, mint).0;
    assert cfg.s256(AnySecret()) in s2.t.refresh && s2.t.refresh[cfg.s256(AnySecret())].tenantID == id;
    RunTwo(cfg, s, purge, mint);
  }

  lemma IssuingRevives(cfg: Config, s: Sys, pid: nat, id: string) returns (events: seq<Event>)
    requires pid in s.procs && s.procs[pid].Issuing? && s.procs[pid].id == id
    ensures Plausible(events, id) && !NoRows(Run(cfg, s, events).t, id)
  {
    var now := LaterThanAll(s.t.codes.Keys, map c | c in s.t.codes :: s.t.codes[c].expiresAt);
    var purge, issue := PurgeCodesAt(now), Step(pid, Secret(AnySecret()), now);
    events := [purge, issue];
    var s1 := Next(cfg, s, purge).0;
    assert s1.t.codes == map[];
    var s2 := Next(cfg, s1, issue).0;
    assert AnySecret() in s2.t.codes && s2.t.codes[AnySecret()].tenantID == id;
    RunTwo(cfg, s, purge, issue);
  }

  lemma RunTwo(cfg: Config, s: Sys, e: Event, f: Event)
    ensures Run(cfg, s, [e, f]) == Next(cfg, Next(cfg, s, e).0, f).0
  {
    var s1 := Next(cfg, s, e).0;
    assert [e, f][1..] == [f] && [f][1..] == [];
    assert Run(cfg, s1, [f]) == Run(cfg, Next(cfg, s1, f).0, []);
  }

  /** Deleting the user first makes room for a stale row of the same user. */
  lemma MakeRoom(cfg: Config, s: Sys, m: string) returns (events: seq<Event>)
    requires Sound(s.t) && m != ""
    ensures forall id :: Plausible(events, id)
    ensures var s' := Run(cfg, s, events);
            && s'.procs == s.procs && TenantOf(s'.t.tenants, m).None?
            && s'.t.tenants.Keys <= s.t.tenants.Keys
  {
    var pid := UnusedPid(s.procs.Keys);
    var ask, drop := Start(pid, DataDeletion(m), 0), Step(pid, Nothing, 0);
    events := [ask, drop];
    RunTwo(cfg, s, ask, drop);
    var s1 := Next(cfg, s, ask).0;
    if TenantOf(s.t.tenants, m).Some? {
      assert s1.procs[pid] == Deleting(TenantOf(s.t.tenants, m).value);
      assert Run(cfg, s, events).procs == s.procs;
    } else {
      assert s1.procs == s.procs;
    }
  }

  /** A stale upsert of a forgotten id re-creates its tenant row. */
  lemma UpsertRevives(cfg: Config, s: Sys, pid: nat, id: string) returns (events: seq<Event>)
    requires Sound(s.t) && NoRows(s.t, id) && NamedUsers(s) && pid in s.procs
    requires (s.procs[pid].Upserting? && s.procs[pid].id == id)
          || (s.procs[pid].Sweeping? && s.procs[pid].todo != [] && s.procs[pid].todo[0].0 == id)
    ensures Plausible(events, id) && !NoRows(Run(cfg, s, events).t, id)
  {
    var p := s.procs[pid];
    var m := if p.Upserting? then p.row.metaUserID else p.todo[0].1.metaUserID;
    var room := MakeRoom(cfg, s, m);
    var write := Step(pid, if p.Upserting? then Nothing else Exchange(Some(LongLivedToken("", 0))), 0);
    events := room + [write];
    RunAppend(cfg, s, room, [write]);
    var s1 := Run(cfg, s, room);
    assert [write][1..] == [];
    assert Plausible(room, id) && !write.input.Login?;
    assert id in Next(cfg, s1, write).0.t.tenants;
  }

  lemma {:induction false} SweepRevives(cfg: Config, s: Sys, pid: nat, id: string, k: nat) returns (events: seq<Event>)
    requires Sound(s.t) && NoRows(s.t, id) && NamedUsers(s) && pid in s.procs && s.procs[pid].Sweeping?
    requires k < |s.procs[pid].todo| && s.procs[pid].todo[k].0 == id
    ensures Plausible(events, id) && !NoRows(Run(cfg, s, events).t, id)
    decreases k
  {
    if k == 0 {
      events := UpsertRevives(cfg, s, pid, id);
    } else {
      var skip := Step(pid, Exchange(None), 0);
      var s1 := Next(cfg, s, skip).0;
      var todo := s.procs[pid].todo;
      assert s1 == s.(procs := s.procs[pid := Sweeping(todo[1..])]);
      var rest := SweepRevives(cfg, s1, pid, id, k - 1);
      events := [skip] + rest;
      assert events[1..] == rest;
    }
  }

  lemma Revives(cfg: Config, s: Sys, pid: nat, id: string) returns (events: seq<Event>)
    requires Sound(s.t) && NoRows(s.t, id) && NamedUsers(s) && pid in s.procs && Remembers(s.procs[pid], id)
    ensures Plausible(events, id) && !NoRows(Run(cfg, s, events).t, id)
  {
    match s.procs[pid]
    case Minting(_, _) => events := MintingRevives(cfg, s, pid, id);
    case Issuing(_, _) => events := IssuingRevives(cfg, s, pid, id);
    case Upserting(_, _, _) => events := UpsertRevives(cfg, s, pid, id);
    case Sweeping(todo) =>
      var k :| 0 <= k < |todo| && todo[k].0 == id;
      events := SweepRevives(cfg, s, pid, id, k);
    case Syncing(req, _) =>
      var sync := Step(pid, Accounts(Some([])), 0);
      var s1 := Next(cfg, s, sync).0;
      assert s1.procs[pid] == Issuing(req, id);
      var rest := IssuingRevives(cfg, s1, pid, id);
      events := [sync] + rest;
      assert events[1..] == rest;
  }

  /** Deletion is final, exactly when no handler in flight remembers the tenant: then, and only then,
      no interleaving of later events ever stores anything for its id again. */
  lemma DeletionIsFinal(cfg: Config, s: Sys, id: string)
    requires Sound(s.t) && NamedUsers(s) && NoRows(s.t, id)
    ensures !Remembered(s, id) <==> forall events :: Plausible(events, id) ==> NoRows(Run(cfg, s, events).t, id)
  {
    if Remembered(s, id) {
      var pid :| pid in s.procs && Remembers(s.procs[pid], id);
      var events := Revives(cfg, s, pid, id);
    } else {
      forall events | Plausible(events, id) ensures NoRows(Run(cfg, s, events).t, id) {
        ForgottenForever(cfg, s, events, id);
      }
    }
  }

  /** With handlers that run to completion one at a time, the data deletion callback is final, and no
      later code or refresh grant is ever accepted for the deleted tenant. */
  lemma AtomicDeletionIsFinal(cfg: Config, s: Sys, pid: nat, m: string, now: Time, events: seq<Event>, e: Event)
    requires s.procs == map[] && m != "" && TenantOf(s.t.tenants, m).Some?
    requires NeverDrawn(events + [e], TenantOf(s.t.tenants, m).value)
    ensures var id := TenantOf(s.t.tenants, m).value;
            var s' := Run(cfg, s, [Start(pid, DataDeletion(m), now), Step(pid, Nothing, now)] + events);
            && NoRows(s'.t, id)
            && (Enabled(s', e) && (e.Start? || e.Step?) ==>
                forall clientID :: Call(cfg, s', e).1 != Then(Minting(id, clientID)))
  {
    var id := TenantOf(s.t.tenants, m).value;
    var ask, drop := Start(pid, DataDeletion(m), now), Step(pid, Nothing, now);
    RunAppend(cfg, s, [ask, drop], events);
    RunTwo(cfg, s, ask, drop);
    var s0 := Next(cfg, Next(cfg, s, ask).0, drop).0;
    assert s0 == Sys(DeleteTenant(s.t, id), map[]);
    DeleteForgets(s.t, id);
    assert NeverDrawn(events, id) by { assert forall i :: 0 <= i < |events| ==> (events + [e])[i] == events[i]; }
    ForgottenForever(cfg, s0, events, id);
    assert NeverDrawn([e], id) by { assert (events + [e])[|events|] == e; }
    var s' := Run(cfg, s0, events);
    if Enabled(s', e) {
      if e.Start? { StartKeepsForgotten(cfg, s', e, id); }
      else if e.Step? { StepKeepsForgotten(cfg, s', e, id); }
    }
  }
}
