/** The sweep that renews Meta user tokens, and exactly how much trouble a tenant survives. */
module Renewal {
  import opened Domain
  import opened Storage
  import opened Session
  import opened Database

  const DEFAULT_REFRESH_WINDOW: Time := 14 * DAY
  const RECHECK_INTERVAL: Time := 7 * DAY
  const TOKEN_REFRESH_INTERVAL: Time := 12 * HOUR

  /** What Meta grants each tenant that is asked for, and the clock when it is written; tenants that are
      missing are refused, for whatever reason. */
  type Grants = map<string, (LongLivedToken, Time)>

  function GrantFor(id: string, grants: Grants): Option<LongLivedToken> {
    if id in grants then Some(grants[id].0) else None
  }

  function GrantedAt(id: string, grants: Grants): Time {
    if id in grants then grants[id].1 else 0
  }

  ghost function SweepAll(t: Tables, todo: seq<(string, TenantRow)>, grants: Grants): Tables
    decreases |todo|
  {
    if todo == [] then t
    else
      var id := todo[0].0;
      SweepAll(Renew(t, id, todo[0].1, GrantFor(id, grants), GrantedAt(id, grants)), todo[1..], grants)
  }

  // ----- one sweep -----

  datatype Report = Report(checked: nat, refreshed: nat, expired: seq<string>)

  /** The listed tenants Meta refused, in order. */
  function RefusedIn(todo: seq<(string, TenantRow)>, grants: Grants): seq<string> {
    if todo == [] then []
    else RefusedIn(todo[..|todo| - 1], grants) + (if todo[|todo| - 1].0 in grants then [] else [todo[|todo| - 1].0])
  }

  class RenewalService {
    const store: Store

    constructor (store: Store)
      ensures this.store == store
    {
      this.store := store;
    }

    /** Stops before tenant number `cancelledAt`, if the context is cancelled by then. Completed, it has renewed every
        tenant that was due and granted, and no other row. */
    method RefreshExpiringTokens(requestedWindow: Time, now: Time, grants: Grants, cancelledAt: Option<nat>)
      returns (report: Report, completed: bool, todo: seq<(string, TenantRow)>)
      requires store.Valid()
      modifies store`tenants
      ensures store.Valid()
      ensures var window := if requestedWindow <= 0 then DEFAULT_REFRESH_WINDOW else requestedWindow;
              Lists(old(store.tenants), todo,
                  DueIDs(old(store.tenants), Unix(now + window), Unix(now - RECHECK_INTERVAL)))
      ensures completed == !(cancelledAt.Some? && cancelledAt.value < |todo|)
      ensures var n := if completed then |todo| else cancelledAt.value;
              && store.Snapshot() == SweepAll(old(store.Snapshot()), todo[..n], grants)
              && report.checked == |todo|
              && report.expired == RefusedIn(todo[..n], grants)
              && report.refreshed + |report.expired| == n
      ensures var window := if requestedWindow <= 0 then 14 * DAY else requestedWindow;
              completed ==> Renews(old(store.Snapshot()), store.Snapshot(), window, now, grants)
    {
      ghost var before := store.Snapshot();
      var window := if requestedWindow <= 0 then DEFAULT_REFRESH_WINDOW else requestedWindow;
      todo := store.TenantsDueForTokenRefresh(now + window, now - RECHECK_INTERVAL);
      ListedAsStored(before.tenants, todo, DueIDs(before.tenants, Unix(now + window), Unix(now - RECHECK_INTERVAL)));
      var refreshed, expired, n := RenewEach(todo, grants, cancelledAt);
      ListedSweepRenews(before, store.Snapshot(), todo, n, window, now, grants);
      return Report(|todo|, refreshed, expired), n == |todo|, todo;
    }

    method RenewEach(todo: seq<(string, TenantRow)>, grants: Grants, cancelledAt: Option<nat>)
      returns (refreshed: nat, expired: seq<string>, n: nat)
      requires store.Valid() && StillStored(store.tenants, todo, 0) && EachOnce(todo)
      modifies store`tenants
      ensures store.Valid()
      ensures n == if cancelledAt.Some? && cancelledAt.value < |todo| then cancelledAt.value else |todo|
      ensures store.Snapshot() == SweepAll(old(store.Snapshot()), todo[..n], grants)
      ensures expired == RefusedIn(todo[..n], grants) && refreshed + |expired| == n
    {
      ghost var t0 := store.Snapshot();
      refreshed, expired := 0, [];
      for i := 0 to |todo|
        invariant store.Valid() && StillStored(store.tenants, todo, i)
        invariant store.Snapshot() == SweepAll(t0, todo[..i], grants)
        invariant expired == RefusedIn(todo[..i], grants) && refreshed + |expired| == i
        invariant cancelledAt.Some? ==> i <= cancelledAt.value
      {
        if cancelledAt.Some? && cancelledAt.value == i {
          return refreshed, expired, i;
        }
        SweepAppend(t0, todo, i, grants);
        RefusedAppend(todo, i, grants);
        UpdateKeepsRest(store.tenants, todo, i, NewRow(todo[i].0, todo[i].1, grants));
        RenewUpdates(store.Snapshot(), todo[i].0, todo[i].1, grants);
        var ok := RefreshOne(todo[i].0, todo[i].1, grants);
        if ok {
          refreshed := refreshed + 1;
        } else {
          expired := expired + [todo[i].0];
        }
      }
      return refreshed, expired, |todo|;
    }

    /** One exchange and its write, whatever has happened to the row since it was read. */
    method RefreshOne(id: string, row: TenantRow, grants: Grants) returns (ok: bool)
      requires store.Valid()
      modifies store`tenants
      ensures store.Valid()
      ensures ok ==
              (id in grants && UpsertTenant(old(store.tenants), id, Renewed(row, grants[id].0, grants[id].1)).Some?)
      ensures store.Snapshot() == Renew(old(store.Snapshot()), id, row, GrantFor(id, grants), GrantedAt(id, grants))
      ensures ok ==> exists at :: SavesGrant(old(store.Snapshot()), store.Snapshot(), at, row, grants[id])
      ensures !ok ==> store.Snapshot() == old(store.Snapshot())
    {
      if id !in grants {
        return false;
      }
      ghost var before := store.Snapshot();
      ghost var at := UpsertExact(before.tenants, id, Renewed(row, grants[id].0, grants[id].1));
      RenewedHolds(row, grants[id]);
      ok := store.UpsertTenant(id, Renewed(row, grants[id].0, grants[id].1));
      assert ok ==> SavesGrant(before, store.Snapshot(), at, row, grants[id]);
    }
  }

  /** The row of this user, wherever it is stored by now, holds the granted token, the second of its write and the
      deadline that follows; the user, the name and the creation second are as they were read, and nothing else is
      touched. */
  ghost predicate SavesGrant(t: Tables, after: Tables, at: string, row: TenantRow, granted: (LongLivedToken, Time)) {
    && after == t.(tenants := after.tenants) && at in after.tenants
    && HoldsGrant(after.tenants[at], row, granted)
    && after.tenants[at].createdAt == (if at in t.tenants then t.tenants[at].createdAt else row.createdAt)
    && forall i :: i != at ==>
         (i in after.tenants <==> i in t.tenants) && (i in t.tenants ==> after.tenants[i] == t.tenants[i])
  }

  /** The token and the deadline of the grant, and the user and name of the row it was asked for. */
  predicate HoldsGrant(saved: TenantRow, row: TenantRow, granted: (LongLivedToken, Time)) {
    && saved.metaUserID == row.metaUserID && saved.displayName == row.displayName
    && saved.userToken == granted.0.token
    && Instant(saved.updatedAt) <= granted.1 < Instant(saved.updatedAt) + SECOND
    && if granted.0.expiresIn <= 0 then saved.expiresAt == 0
       else Instant(saved.expiresAt) <= granted.1 + granted.0.expiresIn < Instant(saved.expiresAt) + SECOND
  }

  /** The rows from number i on are still as they were read. */
  ghost predicate StillStored(tenants: map<string, TenantRow>, todo: seq<(string, TenantRow)>, i: nat) {
    forall j :: i <= j < |todo| ==> todo[j].0 in tenants && tenants[todo[j].0] == todo[j].1
  }

  ghost predicate EachOnce(todo: seq<(string, TenantRow)>) {
    forall j, k :: 0 <= j < k < |todo| ==> todo[j].0 != todo[k].0
  }

  lemma ListedAsStored(tenants: map<string, TenantRow>, todo: seq<(string, TenantRow)>, ids: set<string>)
    requires Lists(tenants, todo, ids)
    ensures StillStored(tenants, todo, 0) && EachOnce(todo)
  {
  }

  /** What a listed row becomes. */
  function NewRow(id: string, row: TenantRow, grants: Grants): TenantRow {
    if id in grants then Renewed(row, grants[id].0, grants[id].1) else row
  }

  lemma UpdateKeepsRest(tenants: map<string, TenantRow>, todo: seq<(string, TenantRow)>, i: nat, row: TenantRow)
    requires i < |todo| && StillStored(tenants, todo, i)
    requires EachOnce(todo)
    ensures StillStored(tenants[todo[i].0 := row], todo, i + 1)
  {}

  lemma RefusedAppend(todo: seq<(string, TenantRow)>, i: nat, grants: Grants)
    requires i < |todo|
    ensures RefusedIn(todo[..i + 1], grants) ==
            RefusedIn(todo[..i], grants) + (if todo[i].0 in grants then [] else [todo[i].0])
  {
    assert todo[..i + 1][..i] == todo[..i];
  }

  lemma {:induction false} SweepAppend(t: Tables, todo: seq<(string, TenantRow)>, i: nat, grants: Grants)
    requires i < |todo|
    ensures SweepAll(t, todo[..i + 1], grants) ==
            Renew(SweepAll(t, todo[..i], grants), todo[i].0, todo[i].1, GrantFor(todo[i].0, grants),
                GrantedAt(todo[i].0, grants))
    decreases i
  {
    if i > 0 {
      var t1 := Renew(t, todo[0].0, todo[0].1, GrantFor(todo[0].0, grants), GrantedAt(todo[0].0, grants));
      assert todo[..i + 1][1..] == todo[1..][..i] && todo[..i][1..] == todo[1..][..i - 1];
      SweepAppend(t1, todo[1..], i - 1, grants);
    } else {
      assert todo[..1] == [todo[0]] && [todo[0]][1..] == [];
      var t1 := Renew(t, todo[0].0, todo[0].1, GrantFor(todo[0].0, grants), GrantedAt(todo[0].0, grants));
      assert SweepAll(t1, [], grants) == t1;
    }
  }

  // ----- what a sweep writes, column by column -----

  /** A known deadline that the window reaches, or an unknown one not renewed for a week, each by a full second. */
  predicate NeedsRenewal(row: TenantRow, window: Time, now: Time) {
    || (row.expiresAt > 0 && Instant(row.expiresAt) + SECOND <= now + window)
    || (row.expiresAt == 0 && Instant(row.updatedAt) + SECOND <= now - 7 * DAY)
  }

  /** Every tenant that needs its renewal and is granted one holds it; every other row is as it was, and so is
      everything that is not a tenant. */
  ghost predicate Renews(t: Tables, after: Tables, window: Time, now: Time, grants: Grants) {
    && after == t.(tenants := after.tenants) && after.tenants.Keys == t.tenants.Keys
    && forall id :: id in t.tenants ==>
         if NeedsRenewal(t.tenants[id], window, now) && id in grants
         then HoldsGrant(after.tenants[id], t.tenants[id], grants[id])
              && after.tenants[id].createdAt == t.tenants[id].createdAt
         else after.tenants[id] == t.tenants[id]
  }

  lemma RenewedHolds(row: TenantRow, granted: (LongLivedToken, Time))
    ensures var saved := Renewed(row, granted.0, granted.1);
            HoldsGrant(saved, row, granted) && saved.createdAt == row.createdAt
  {
    FloorLoss(granted.1);
    FloorLoss(granted.1 + granted.0.expiresIn);
  }

  lemma SweepRenews(t: Tables, after: Tables, todo: seq<(string, TenantRow)>, n: nat, window: Time, now: Time,
      grants: Grants)
    requires Sound(t) && n <= |todo| && after == SweepAll(t, todo[..n], grants)
    requires Covers(t.tenants, todo, DueIDs(t.tenants, Unix(now + window), Unix(now - RECHECK_INTERVAL)))
    ensures n == |todo| ==> Renews(t, after, window, now, grants)
  {
    assert todo[..|todo|] == todo;
    SweepIsAVisitToEach(t, todo, window, now, grants);
    forall id | id in t.tenants
      ensures DueAt(t.tenants[id], window, now) <==> NeedsRenewal(t.tenants[id], window, now)
      ensures id in grants ==>
                var saved := Renewed(t.tenants[id], grants[id].0, grants[id].1);
                HoldsGrant(saved, t.tenants[id], grants[id]) && saved.createdAt == t.tenants[id].createdAt
    {
      DueExact(t.tenants[id], now + window, now - RECHECK_INTERVAL);
      if id in grants { RenewedHolds(t.tenants[id], grants[id]); }
    }
  }

  lemma ListedSweepRenews(t: Tables, after: Tables, todo: seq<(string, TenantRow)>, n: nat, window: Time, now: Time,
      grants: Grants)
    requires Sound(t) && n <= |todo| && after == SweepAll(t, todo[..n], grants)
    requires Lists(t.tenants, todo, DueIDs(t.tenants, Unix(now + window), Unix(now - RECHECK_INTERVAL)))
    ensures n == |todo| ==> Renews(t, after, window, now, grants)
  {
    SweepRenews(t, after, todo, n, window, now, grants);
  }

  // ----- what a sweep means for one tenant -----

  /** One sweep as one tenant lives it: when it started, and what Meta answered if it was asked. */
  datatype Visit = Visit(start: Time, at: Time, granted: Option<LongLivedToken>)

  predicate DueAt(row: TenantRow, window: Time, start: Time) {
    Due(row, Unix(start + window), Unix(start - RECHECK_INTERVAL))
  }

  function AfterVisit(row: TenantRow, window: Time, v: Visit): TenantRow {
    if DueAt(row, window, v.start) && v.granted.Some? then Renewed(row, v.granted.value, v.at) else row
  }

  /** A completed sweep gives every tenant its visit and does nothing else: a tenant that is not due, or
      is refused, keeps its row. */
  lemma SweepIsAVisitToEach(t: Tables, todo: seq<(string, TenantRow)>, window: Time, now: Time, grants: Grants)
    requires Sound(t)
    requires Covers(t.tenants, todo, DueIDs(t.tenants, Unix(now + window), Unix(now - RECHECK_INTERVAL)))
    ensures var after := SweepAll(t, todo, grants);
            && after == t.(tenants := after.tenants) && after.tenants.Keys == t.tenants.Keys
            && forall id :: id in t.tenants ==>
                 after.tenants[id] ==
                     AfterVisit(t.tenants[id], window, Visit(now, GrantedAt(id, grants), GrantFor(id, grants)))
  {
    SweepKeepsOthers(t, todo, grants);
    var ids := DueIDs(t.tenants, Unix(now + window), Unix(now - RECHECK_INTERVAL));
    forall id | id in t.tenants
      ensures SweepAll(t, todo, grants).tenants[id] ==
              AfterVisit(t.tenants[id], window, Visit(now, GrantedAt(id, grants), GrantFor(id, grants)))
    {
      assert DueAt(t.tenants[id], window, now) <==> id in ids;
      if id in ids {
        var i :| 0 <= i < |todo| && todo[i].0 == id;
        SweepRow(t, todo, grants, i);
      }
    }
  }

  lemma RenewUpdates(t: Tables, id: string, row: TenantRow, grants: Grants)
    requires Sound(t) && id in t.tenants && t.tenants[id] == row
    ensures Renew(t, id, row, GrantFor(id, grants), GrantedAt(id, grants)) ==
            t.(tenants := t.tenants[id := NewRow(id, row, grants)])
    ensures Sound(t.(tenants := t.tenants[id := NewRow(id, row, grants)]))
    ensures id in grants ==> UpsertTenant(t.tenants, id, Renewed(row, grants[id].0, grants[id].1)).Some?
  {
    TenantOfUnique(t.tenants, id);
    assert id !in grants ==> t.tenants == t.tenants[id := row];
  }

  /** The first listed row gets its new form; the rest of the sweep finds the other rows as they were. */
  lemma SweepFirst(t: Tables, todo: seq<(string, TenantRow)>, grants: Grants) returns (t1: Tables)
    requires Sound(t) && StillStored(t.tenants, todo, 0) && EachOnce(todo) && todo != []
    ensures t1 == t.(tenants := t.tenants[todo[0].0 := NewRow(todo[0].0, todo[0].1, grants)])
    ensures SweepAll(t, todo, grants) == SweepAll(t1, todo[1..], grants)
    ensures Sound(t1) && StillStored(t1.tenants, todo[1..], 0) && EachOnce(todo[1..])
  {
    var id, row := todo[0].0, todo[0].1;
    t1 := t.(tenants := t.tenants[id := NewRow(id, row, grants)]);
    RenewUpdates(t, id, row, grants);
    UpdateKeepsRest(t.tenants, todo, 0, NewRow(id, row, grants));
  }

  lemma {:induction false} SweepKeepsOthers(t: Tables, todo: seq<(string, TenantRow)>, grants: Grants)
    requires Sound(t) && StillStored(t.tenants, todo, 0) && EachOnce(todo)
    ensures var after := SweepAll(t, todo, grants);
            && after == t.(tenants := after.tenants) && after.tenants.Keys == t.tenants.Keys
            && (forall id :: id in t.tenants && (forall i :: 0 <= i < |todo| ==> todo[i].0 != id) ==>
                after.tenants[id] == t.tenants[id])
    decreases |todo|
  {
    if todo != [] {
      var t1 := SweepFirst(t, todo, grants);
      SweepKeepsOthers(t1, todo[1..], grants);
    }
  }

  lemma {:induction false} SweepRow(t: Tables, todo: seq<(string, TenantRow)>, grants: Grants, i: nat)
    requires Sound(t) && StillStored(t.tenants, todo, 0) && EachOnce(todo) && i < |todo|
    ensures var after := SweepAll(t, todo, grants).tenants;
            todo[i].0 in after && after[todo[i].0] == NewRow(todo[i].0, todo[i].1, grants)
    decreases |todo|
  {
    var t1 := SweepFirst(t, todo, grants);
    if i == 0 {
      SweepKeepsOthers(t1, todo[1..], grants);
    } else {
      SweepRow(t1, todo[1..], grants, i - 1);
    }
  }

  /** Quiet period: a tenant without a known deadline is not exchanged again by a sweep that starts
      within seven days of its last successful exchange, however the seconds are rounded. */
  lemma QuietPeriod(row: TenantRow, granted: LongLivedToken, at: Time, window: Time, start: Time)
    requires granted.expiresIn <= 0
    ensures DueAt(Renewed(row, granted, at), window, start) ==> start > at + RECHECK_INTERVAL
    ensures start >= at + RECHECK_INTERVAL + SECOND ==> DueAt(Renewed(row, granted, at), window, start)
  {
    FloorLoss(at);
  }

  // ----- the renewal bound -----

  /** The deadline, if one is known, is still ahead at `instant`. */
  predicate Ahead(row: TenantRow, instant: Time) {
    row.expiresAt > 0 ==> instant < Instant(row.expiresAt)
  }

  /** The counter of consecutive failed due visits after `v`. */
  function FailuresAfter(row: TenantRow, window: Time, v: Visit, failures: nat): nat {
    if DueAt(row, window, v.start) && v.granted.None? then failures + 1 else 0
  }

  /** Sweeps reach the tenant at most `gap` after the previous one started, every grant lasts at least
      `life` (or has no deadline), and no m due visits in a row fail. */
  predicate Tolerable(row: TenantRow, last: Time, failures: nat, visits: seq<Visit>, window: Time, gap: Time,
      life: Time, m: nat)
    decreases |visits|
  {
    visits != [] ==>
      var v := visits[0];
      && last <= v.start <= v.at <= last + gap
      && (v.granted.Some? ==> v.granted.value.expiresIn <= 0 || v.granted.value.expiresIn >= life)
      && FailuresAfter(row, window, v, failures) < m
      && Tolerable(AfterVisit(row, window, v), v.start, FailuresAfter(row, window, v, failures), visits[1..], window,
          gap, life, m)
  }

  /** A known deadline is ahead of every instant until the next visit is done, and so on; after the last
      visit, until the next one is overdue. */
  predicate NeverPast(row: TenantRow, last: Time, visits: seq<Visit>, window: Time, gap: Time)
    decreases |visits|
  {
    if visits == [] then Ahead(row, last + gap)
    else
      && Ahead(row, visits[0].at)
      && NeverPast(AfterVisit(row, window, visits[0]), visits[0].start, visits[1..], window, gap)
  }

  /** Where a tenant's story starts: just granted a token (a login or a renewal), or just found not due. */
  ghost predicate FreshStart(row: TenantRow, last: Time, window: Time, life: Time) {
    || (exists lifetime: Time :: (lifetime <= 0 || lifetime >= life) && row.expiresAt == DeadlineFrom(last, lifetime))
    || !DueAt(row, window, last)
  }

  lemma {:induction false} StaysAhead(row: TenantRow, last: Time, failures: nat, visits: seq<Visit>, window: Time,
      gap: Time, life: Time, m: nat)
    requires gap > 0 && failures < m && m * gap + SECOND <= window && m * gap + SECOND <= life
    requires Ahead(row, last + (m - failures) * gap)
    requires Tolerable(row, last, failures, visits, window, gap, life, m)
    ensures NeverPast(row, last, visits, window, gap)
    decreases |visits|
  {
    assert (m - failures) * gap == (m - failures - 1) * gap + gap;
    assert (m - failures - 1) * gap >= 0;
    if visits != [] {
      var v := visits[0];
      var row', k := AfterVisit(row, window, v), FailuresAfter(row, window, v, failures);
      if DueAt(row, window, v.start) && v.granted.None? {
        assert (m - k) * gap == (m - failures) * gap - gap;
      } else {
        assert (m - k) * gap == m * gap;
        FloorLoss(v.start + window);
        if v.granted.Some? { FloorLoss(v.at + v.granted.value.expiresIn); }
      }
      StaysAhead(row', v.start, k, visits[1..], window, gap, life, m);
    }
  }

  lemma RenewalSuffices(row: TenantRow, last: Time, visits: seq<Visit>, window: Time, gap: Time, life: Time, m: nat)
    requires gap > 0 && m > 0 && m * gap + SECOND <= window && m * gap + SECOND <= life
    requires FreshStart(row, last, window, life) && Tolerable(row, last, 0, visits, window, gap, life, m)
    ensures NeverPast(row, last, visits, window, gap)
  {
    FloorLoss(last + window);
    if DueAt(row, window, last) {
      var lifetime: Time :| (lifetime <= 0 || lifetime >= life) && row.expiresAt == DeadlineFrom(last, lifetime);
      FloorLoss(last + lifetime);
    }
    assert (m - 0) * gap == m * gap;
    StaysAhead(row, last, 0, visits, window, gap, life, m);
  }

  /** `n` sweeps, one every `gap`, that all fail. */
  function Failing(last: Time, gap: Time, n: nat): seq<Visit>
    decreases n
  {
    if n == 0 then [] else [Visit(last + gap, last + gap, None)] + Failing(last + gap, gap, n - 1)
  }

  lemma {:induction false} FailingRunsOut(row: TenantRow, last: Time, failures: nat, n: nat, window: Time, gap: Time,
      life: Time, m: nat)
    requires gap > 0 && failures + n < m && row.expiresAt > 0
    requires row.expiresAt < Unix(last + gap + window) && Instant(row.expiresAt) <= last + (n + 1) * gap
    ensures Tolerable(row, last, failures, Failing(last, gap, n), window, gap, life, m)
    ensures !NeverPast(row, last, Failing(last, gap, n), window, gap)
    decreases n
  {
    if n > 0 {
      assert (n + 1) * gap == gap + n * gap;
      assert Failing(last, gap, n)[1..] == Failing(last + gap, gap, n - 1);
      FailingRunsOut(row, last + gap, failures + 1, n - 1, window, gap, life, m);
    }
  }

  /** When the margin is too small by a nanosecond, some tolerable history lets a deadline pass. */
  lemma RenewalFails(window: Time, gap: Time, life: Time, m: nat)
      returns (row: TenantRow, last: Time, visits: seq<Visit>)
    requires gap > 0 && m > 0 && window > 0 && life > 0
    requires m * gap + SECOND > window || m * gap + SECOND > life
    ensures FreshStart(row, last, window, life) && Tolerable(row, last, 0, visits, window, gap, life, m)
    ensures !NeverPast(row, last, visits, window, gap)
  {
    var margin := if window <= life then window else life;
    last := Instant(margin + 1) + SECOND - 1 - margin;
    row := TenantRow("user", "", "", 0, 0, Unix(last + margin));
    assert row.expiresAt == margin + 1 && Unix(last + margin + 1) == margin + 2;
    if margin == window {
      assert !DueAt(row, window, last);
    } else {
      assert row.expiresAt == DeadlineFrom(last, life);
    }
    visits := Failing(last, gap, m - 1);
    assert (m - 1 + 1) * gap == m * gap;
    FailingRunsOut(row, last, 0, m - 1, window, gap, life, m);
  }

  /** The renewal bound, exactly: a known deadline is never in the past, whatever happens within the
      tolerances, if and only if m gaps and one second fit both in the window and in a token's life. */
  lemma RenewalBound(window: Time, gap: Time, life: Time, m: nat)
    requires gap > 0 && m > 0 && window > 0 && life > 0
    ensures (forall row: TenantRow, last: Time, visits: seq<Visit> ::
               FreshStart(row, last, window, life) && Tolerable(row, last, 0, visits, window, gap, life, m) ==>
                 NeverPast(row, last, visits, window, gap))
            <==> m * gap + SECOND <= window && m * gap + SECOND <= life
  {
    if m * gap + SECOND <= window && m * gap + SECOND <= life {
      forall row: TenantRow, last: Time, visits: seq<Visit>
        | FreshStart(row, last, window, life) && Tolerable(row, last, 0, visits, window, gap, life, m)
        ensures NeverPast(row, last, visits, window, gap)
      {
        RenewalSuffices(row, last, visits, window, gap, life, m);
      }
    } else {
      var row, last, visits := RenewalFails(window, gap, life, m);
    }
  }

  /** As deployed, with a two week window and tokens of at least two weeks: whatever a sweep takes on top of the
      twelve hours between two of them, up to the 26 minutes the window leaves to each, a tenant survives 26
      consecutive failures and not, in general, 27. */
  lemma DeployedTolerance(gap: Time, life: Time, m: nat)
    requires m > 0 && life >= DEFAULT_REFRESH_WINDOW
    requires TOKEN_REFRESH_INTERVAL <= gap && 27 * gap + SECOND <= DEFAULT_REFRESH_WINDOW
    ensures (forall row: TenantRow, last: Time, visits: seq<Visit> ::
               FreshStart(row, last, DEFAULT_REFRESH_WINDOW, life)
               && Tolerable(row, last, 0, visits, DEFAULT_REFRESH_WINDOW, gap, life, m) ==>
                 NeverPast(row, last, visits, DEFAULT_REFRESH_WINDOW, gap))
            <==> m - 1 <= 26
  {
    RenewalBound(DEFAULT_REFRESH_WINDOW, gap, life, m);
    GapsThatFit(DEFAULT_REFRESH_WINDOW, gap, m);
  }

  lemma GapsThatFit(window: Time, gap: Time, m: nat)
    requires gap > 0 && 27 * gap + SECOND <= window < 28 * gap + SECOND
    ensures m * gap + SECOND <= window <==> m <= 27
  {
    if m <= 27 {
      MultipleGrows(m, 27, gap);
    } else {
      MultipleGrows(28, m, gap);
    }
  }

  lemma MultipleGrows(m: nat, n: nat, gap: Time)
    requires m <= n && gap > 0
    ensures m * gap <= n * gap
  {
    assert n * gap - m * gap == (n - m) * gap;
  }

  /** A sweep may take 26 minutes, and not 27. */
  lemma DeployedSlack(slack: Time)
    ensures 27 * (TOKEN_REFRESH_INTERVAL + slack) + SECOND <= DEFAULT_REFRESH_WINDOW
            <==> slack <= 26 * MINUTE + 39 * SECOND + 962_962_962
  {}
}
