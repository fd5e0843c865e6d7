/** PurgeExpired can run at any time without any client noticing, and exactly when it cannot. */
module Housekeeping {
  import opened Domain
  import opened Storage
  import opened Session

  ghost predicate CodesSwept(kept: map<string, CodeRow>, purged: map<string, CodeRow>, mark: int) {
    && (forall x :: x in purged ==> x in kept && purged[x] == kept[x])
    && (forall x :: x in kept && x !in purged ==> kept[x].expiresAt <= mark)
  }

  ghost predicate LoginsSwept(kept: map<string, LoginRow>, purged: map<string, LoginRow>, mark: int) {
    && (forall x :: x in purged ==> x in kept && purged[x] == kept[x])
    && (forall x :: x in kept && x !in purged ==> kept[x].expiresAt <= mark)
  }

  ghost predicate RefreshSwept(kept: map<string, RefreshRow>, purged: map<string, RefreshRow>, mark: int) {
    && (forall x :: x in purged ==> x in kept && purged[x] == kept[x])
    && (forall x :: x in kept && x !in purged ==> kept[x].expiresAt <= mark)
  }

  /** The latest clock second of the purges of each table. */
  datatype Marks = Marks(codes: int, logins: int, refresh: int)

  /** `purged` is `kept` after purges whose latest clock seconds are at most `marks`. */
  ghost predicate Swept(kept: Tables, purged: Tables, marks: Marks) {
    && purged.tenants == kept.tenants && purged.pages == kept.pages && purged.clients == kept.clients
    && CodesSwept(kept.codes, purged.codes, marks.codes)
    && LoginsSwept(kept.logins, purged.logins, marks.logins)
    && RefreshSwept(kept.refresh, purged.refresh, marks.refresh)
  }

  /** The drawn secret collides with no stored row. */
  ghost predicate NoCollision(cfg: Config, s: Sys, e: Event) {
    && (e.Start? && e.request.Reconnect? ==> e.request.drawnState !in s.t.logins)
    && (e.Step? && e.pid in s.procs && e.input.Secret? ==>
          match s.procs[e.pid]
          case Parking(_) => e.input.drawn !in s.t.logins
          case Issuing(_, _) => e.input.drawn !in s.t.codes
          case Minting(_, _) => cfg.s256(e.input.drawn) !in s.t.refresh
          case _ => true)
  }

  /** The requests whose first statement looks for a row that a purge may drop. */
  predicate Looks(r: Request) { r.Callback? || r.CodeGrant? || r.RefreshGrant? }

  /** The mark of the table it looks in. */
  function MarkFor(marks: Marks, r: Request): int
    requires Looks(r)
  {
    if r.Callback? then marks.logins else if r.CodeGrant? then marks.codes else marks.refresh
  }

  /** The purge drops rows of the table this request looks in. */
  predicate Drops(e: Event, r: Request) {
    (e.PurgeCodesAt? && r.CodeGrant?) || (e.PurgeLoginsAt? && r.Callback?) || (e.PurgeRefreshAt? && r.RefreshGrant?)
  }

  function Max(a: int, b: int): int { if a < b then b else a }

  function Marked(marks: Marks, e: Event): Marks
    requires IsPurge(e)
  {
    match e
    case PurgeCodesAt(now) => marks.(codes := Max(marks.codes, Unix(now)))
    case PurgeLoginsAt(now) => marks.(logins := Max(marks.logins, Unix(now)))
    case PurgeRefreshAt(now) => marks.(refresh := Max(marks.refresh, Unix(now)))
  }

  lemma StartSeesNoPurge(cfg: Config, kept: Tables, purged: Tables, marks: Marks, r: Request, now: Time)
    requires Swept(kept, purged, marks) && (Looks(r) ==> MarkFor(marks, r) <= Unix(now))
    requires r.Reconnect? ==> r.drawnState !in kept.logins
    ensures Begin(cfg, kept, r, now).1 == Begin(cfg, purged, r, now).1
    ensures Swept(Begin(cfg, kept, r, now).0, Begin(cfg, purged, r, now).0, marks)
  {
    if r.Register? { RegisterSeesNoPurge(cfg, kept, purged, marks, r, now); return; }
    match r
    case Callback(state) => CallbackSeesNoPurge(kept, purged, marks, state, now);
    case CodeGrant(_, _, _, _, _) => CodeGrantSeesNoPurge(cfg, kept, purged, marks, r, now);
    case RefreshGrant(token, client) => RefreshGrantSeesNoPurge(cfg, kept, purged, marks, token, client, now);
    case Sweep(order, window) => DueRowsSame(kept, purged, order, Unix(now + window), Unix(now - 7 * DAY));
    case Reconnect(_) =>
    case _ =>
  }

  lemma RegisterSeesNoPurge(cfg: Config, kept: Tables, purged: Tables, marks: Marks, r: Request, now: Time)
    requires Swept(kept, purged, marks) && r.Register?
    ensures Begin(cfg, kept, r, now).1 == Begin(cfg, purged, r, now).1
    ensures Swept(Begin(cfg, kept, r, now).0, Begin(cfg, purged, r, now).0, marks)
  {}

  /** A purged login state and an expired one get the same answer. */
  lemma CallbackSeesNoPurge(kept: Tables, purged: Tables, marks: Marks, state: string, now: Time)
    requires Swept(kept, purged, marks) && marks.logins <= Unix(now)
    ensures BeginCallback(kept, state, now).1 == BeginCallback(purged, state, now).1
    ensures Swept(BeginCallback(kept, state, now).0, BeginCallback(purged, state, now).0, marks)
  {
    ConsumedLoginsSwept(kept, purged, marks, state);
    if state in kept.logins { FloorAgrees(now, kept.logins[state].expiresAt); }
  }

  lemma ConsumedLoginsSwept(kept: Tables, purged: Tables, marks: Marks, state: string)
    requires Swept(kept, purged, marks)
    ensures Swept(ConsumeLogin(kept, state).0, ConsumeLogin(purged, state).0, marks)
  {
    OneLoginLess(kept.logins, purged.logins, marks.logins, state);
    assert state !in kept.logins ==> kept.logins - {state} == kept.logins;
    assert state !in purged.logins ==> purged.logins - {state} == purged.logins;
  }

  lemma OneLoginLess(kept: map<string, LoginRow>, purged: map<string, LoginRow>, mark: int, state: string)
    requires LoginsSwept(kept, purged, mark)
    ensures LoginsSwept(kept - {state}, purged - {state}, mark)
  {}

  /** A purged code and an expired one get the same error code, before any other check. */
  lemma CodeGrantSeesNoPurge(cfg: Config, kept: Tables, purged: Tables, marks: Marks, r: Request, now: Time)
    requires Swept(kept, purged, marks) && marks.codes <= Unix(now) && r.CodeGrant?
    ensures BeginCodeGrant(cfg, kept, r, now).1 == BeginCodeGrant(cfg, purged, r, now).1
    ensures Swept(BeginCodeGrant(cfg, kept, r, now).0, BeginCodeGrant(cfg, purged, r, now).0, marks)
  {
    if r.code in kept.codes { FloorAgrees(now, kept.codes[r.code].expiresAt); }
  }

  /** The rotation already refuses every row a purge may have dropped. */
  lemma RefreshGrantSeesNoPurge(cfg: Config, kept: Tables, purged: Tables, marks: Marks, token: string,
      clientID: string, now: Time)
    requires Swept(kept, purged, marks) && marks.refresh <= Unix(now)
    ensures BeginRefreshGrant(cfg, kept, token, clientID, now).1 ==
            BeginRefreshGrant(cfg, purged, token, clientID, now).1
    ensures Swept(BeginRefreshGrant(cfg, kept, token, clientID, now).0,
            BeginRefreshGrant(cfg, purged, token, clientID, now).0, marks)
  {}

  lemma {:induction false} DueRowsSame(t: Tables, t': Tables, order: seq<string>, before: int, unchecked: int)
    requires t.tenants == t'.tenants
    ensures DueRows(t, order, before, unchecked) == DueRows(t', order, before, unchecked)
  {
    if order != [] { DueRowsSame(t, t', order[1..], before, unchecked); }
  }

  lemma {:induction false} InsertPagesSame(t: Tables, t': Tables, base: map<PageKey, PageRow>, id: string,
      list: seq<Page>)
    requires t.tenants == t'.tenants
    ensures InsertPages(t, base, id, list) == InsertPages(t', base, id, list)
  {
    if list != [] { InsertPagesSame(t, t', base, id, list[..|list| - 1]); }
  }

  lemma DeleteSeesNoPurge(kept: Tables, purged: Tables, marks: Marks, id: string)
    requires Swept(kept, purged, marks)
    ensures Swept(DeleteTenant(kept, id), DeleteTenant(purged, id), marks)
  {}

  lemma StepSeesNoPurge(cfg: Config, kept: Tables, purged: Tables, marks: Marks, p: Proc, input: Input, now: Time)
    requires Swept(kept, purged, marks)
    requires input.Secret? ==>
               && (p.Parking? ==> input.drawn !in kept.logins)
               && (p.Issuing? ==> input.drawn !in kept.codes)
               && (p.Minting? ==> cfg.s256(input.drawn) !in kept.refresh)
    ensures Resume(cfg, kept, p, input, now).1 == Resume(cfg, purged, p, input, now).1
    ensures Swept(Resume(cfg, kept, p, input, now).0, Resume(cfg, purged, p, input, now).0, marks)
  {
    match p
    case Syncing(_, id) => StorePagesSeesNoPurge(cfg, kept, purged, marks, p, input, now);
    case SyncingTool(id) => StorePagesSeesNoPurge(cfg, kept, purged, marks, p, input, now);
    case Deleting(id) => DeleteSeesNoPurge(kept, purged, marks, id);
    case Parking(_) => DrawSeesNoPurge(cfg, kept, purged, marks, p, input, now);
    case Issuing(_, _) => DrawSeesNoPurge(cfg, kept, purged, marks, p, input, now);
    case Minting(_, _) => DrawSeesNoPurge(cfg, kept, purged, marks, p, input, now);
    case _ => TenantStepSeesNoPurge(cfg, kept, purged, marks, p, input, now);
  }

  lemma TenantStepSeesNoPurge(cfg: Config, kept: Tables, purged: Tables, marks: Marks, p: Proc, input: Input, now: Time)
    requires Swept(kept, purged, marks) && (p.LoggingIn? || p.Upserting? || p.Sweeping?)
    ensures Resume(cfg, kept, p, input, now).1 == Resume(cfg, purged, p, input, now).1
    ensures Swept(Resume(cfg, kept, p, input, now).0, Resume(cfg, purged, p, input, now).0, marks)
  {}

  lemma StorePagesSeesNoPurge(cfg: Config, kept: Tables, purged: Tables, marks: Marks, p: Proc, input: Input, now: Time)
    requires Swept(kept, purged, marks) && (p.Syncing? || p.SyncingTool?)
    ensures Resume(cfg, kept, p, input, now).1 == Resume(cfg, purged, p, input, now).1
    ensures Swept(Resume(cfg, kept, p, input, now).0, Resume(cfg, purged, p, input, now).0, marks)
  {
    if input.Accounts? && input.pages.Some? {
      InsertPagesSame(kept, purged, PagesWithout(kept.pages, p.id), p.id, input.pages.value);
    }
  }

  lemma DrawSeesNoPurge(cfg: Config, kept: Tables, purged: Tables, marks: Marks, p: Proc, input: Input, now: Time)
    requires Swept(kept, purged, marks) && (p.Parking? || p.Issuing? || p.Minting?)
    requires input.Secret? ==>
               && (p.Parking? ==> input.drawn !in kept.logins)
               && (p.Issuing? ==> input.drawn !in kept.codes)
               && (p.Minting? ==> cfg.s256(input.drawn) !in kept.refresh)
    ensures Resume(cfg, kept, p, input, now).1 == Resume(cfg, purged, p, input, now).1
    ensures Swept(Resume(cfg, kept, p, input, now).0, Resume(cfg, purged, p, input, now).0, marks)
  {}

  lemma PurgeSweeps(kept: Tables, purged: Tables, marks: Marks, e: Event)
    requires Swept(kept, purged, marks) && IsPurge(e)
    ensures Swept(kept, Purge(purged, e), Marked(marks, e))
  {}

  // ----- whole runs -----

  /** What every handler answers, in order; purges answer nobody. */
  ghost function Answers(cfg: Config, s: Sys, events: seq<Event>): seq<Option<Response>>
    decreases |events|
  {
    if events == [] then []
    else
      var (s', answer) := Next(cfg, s, events[0]);
      (if IsPurge(events[0]) then [] else [answer]) + Answers(cfg, s', events[1..])
  }

  function WithoutPurges(events: seq<Event>): seq<Event> {
    if events == [] then []
    else (if IsPurge(events[0]) then [] else [events[0]]) + WithoutPurges(events[1..])
  }

  /** No purge of the table a call looks in, before that call, uses a later clock second than the call does. */
  ghost predicate NotOvertaken(events: seq<Event>, looking: Request -> bool) {
    forall i, j | 0 <= i < j < |events| && events[j].Start? ::
      Drops(events[i], events[j].request) && looking(events[j].request) ==>
        Unix(events[i].now) <= Unix(events[j].now)
  }

  /** The same, with purges up to `marks` before the run. */
  ghost predicate Unmarked(events: seq<Event>, marks: Marks) {
    && NotOvertaken(events, Looks)
    && forall j :: 0 <= j < |events| && events[j].Start? && Looks(events[j].request) ==>
         MarkFor(marks, events[j].request) <= Unix(events[j].now)
  }

  lemma UnmarkedRest(events: seq<Event>, marks: Marks)
    requires events != [] && Unmarked(events, marks)
    ensures Unmarked(events[1..], marks)
    ensures IsPurge(events[0]) ==> Unmarked(events[1..], Marked(marks, events[0]))
  {
    assert forall k :: 0 <= k < |events| - 1 ==> events[1..][k] == events[k + 1];
    if IsPurge(events[0]) {
      var marks' := Marked(marks, events[0]);
      forall k | 0 <= k < |events| - 1 && events[1..][k].Start? && Looks(events[1..][k].request)
        ensures MarkFor(marks', events[1..][k].request) <= Unix(events[1..][k].now)
      {
        var r := events[k + 1].request;
        assert MarkFor(marks, r) <= Unix(events[k + 1].now);
        if Drops(events[0], r) { assert Unix(events[0].now) <= Unix(events[k + 1].now); }
      }
    }
  }

  ghost predicate NoCollisions(cfg: Config, s: Sys, events: seq<Event>)
    decreases |events|
  {
    events != [] ==> NoCollision(cfg, s, events[0]) && NoCollisions(cfg, Next(cfg, s, events[0]).0, events[1..])
  }

  lemma {:induction false} PurgedRunAnswersAlike(cfg: Config, kept: Sys, purged: Sys, marks: Marks, events: seq<Event>)
    requires Swept(kept.t, purged.t, marks) && purged.procs == kept.procs
    requires Unmarked(events, marks) && NoCollisions(cfg, kept, WithoutPurges(events))
    ensures Answers(cfg, purged, events) == Answers(cfg, kept, WithoutPurges(events))
    decreases |events|
  {
    if events != [] {
      var e, rest := events[0], events[1..];
      UnmarkedRest(events, marks);
      if IsPurge(e) {
        PurgeSweeps(kept.t, purged.t, marks, e);
        assert WithoutPurges(events) == WithoutPurges(rest);
        PurgedRunAnswersAlike(cfg, kept, Next(cfg, purged, e).0, Marked(marks, e), rest);
      } else {
        assert WithoutPurges(events)[0] == e && WithoutPurges(events)[1..] == WithoutPurges(rest);
        if Enabled(kept, e) {
          if e.Start? { StartSeesNoPurge(cfg, kept.t, purged.t, marks, e.request, e.now); }
          else if e.Step? { StepSeesNoPurge(cfg, kept.t, purged.t, marks, kept.procs[e.pid], e.input, e.now); }
        }
        PurgedRunAnswersAlike(cfg, Next(cfg, kept, e).0, Next(cfg, purged, e).0, marks, rest);
      }
    }
  }

  lemma {:induction false} SomeMark(events: seq<Event>) returns (mark: int)
    ensures forall j :: 0 <= j < |events| && events[j].Start? ==> mark <= Unix(events[j].now)
  {
    mark := 0;
    if events != [] {
      var last := events[|events| - 1];
      mark := SomeMark(events[..|events| - 1]);
      if last.Start? && Unix(last.now) < mark { mark := Unix(last.now); }
    }
  }

  /** The clock of the run: instant k is when the statement of event k runs, and none runs before an earlier one.
      A purge reads the clock before its statement, and a callback and a code grant after theirs. */
  ghost predicate Clocked(events: seq<Event>, instants: seq<Time>) {
    && |instants| == |events|
    && (forall i, j :: 0 <= i < j < |instants| ==> instants[i] <= instants[j])
    && forall i :: 0 <= i < |events| ==>
         && (IsPurge(events[i]) ==> events[i].now <= instants[i])
         && (events[i].Start? && (events[i].request.Callback? || events[i].request.CodeGrant?) ==>
             instants[i] <= events[i].now)
  }

  predicate IsRotation(r: Request) { r.RefreshGrant? }

  /** Purge is invisible: on a clock that never goes back, whatever purge statements are added to a run, wherever,
      every handler answers with the same status and the same error code, unless a purge of the refresh tokens of a
      later second slips between the clock reading of a refresh grant and its rotation. */
  lemma PurgeIsInvisible(cfg: Config, s: Sys, events: seq<Event>, instants: seq<Time>)
    requires Clocked(events, instants) && NotOvertaken(events, IsRotation)
    requires NoCollisions(cfg, s, WithoutPurges(events))
    ensures Answers(cfg, s, events) == Answers(cfg, s, WithoutPurges(events))
  {
    forall i, j | 0 <= i < j < |events| && events[j].Start? && Drops(events[i], events[j].request)
        && Looks(events[j].request)
      ensures Unix(events[i].now) <= Unix(events[j].now)
    {
      if IsRotation(events[j].request) {
      } else {
        assert events[i].now <= instants[i] <= instants[j] <= events[j].now;
      }
    }
    var mark := SomeMark(events);
    PurgedRunAnswersAlike(cfg, s, s, Marks(mark, mark, mark), events);
  }

  /** The exception, exactly: a purge before the rotation of a refresh grant, in any state and for any token, changes
      no answer if and only if its clock second is not later than the one the grant has read. */
  lemma OvertakenRotation(cfg: Config, purgeAt: Time, readAt: Time)
    ensures (forall s: Sys, pid: nat, token: string, clientID: string ::
               var grant := Start(pid, RefreshGrant(token, clientID), readAt);
               Answers(cfg, s, [PurgeRefreshAt(purgeAt), grant]) == Answers(cfg, s, [grant]))
            <==> Unix(purgeAt) <= Unix(readAt)
  {
    if Unix(purgeAt) <= Unix(readAt) {
      forall s: Sys, pid: nat, token: string, clientID: string
        ensures var grant := Start(pid, RefreshGrant(token, clientID), readAt);
                Answers(cfg, s, [PurgeRefreshAt(purgeAt), grant]) == Answers(cfg, s, [grant])
      {
        TimelyPurge(cfg, s, purgeAt, Start(pid, RefreshGrant(token, clientID), readAt));
      }
    } else {
      LatePurge(cfg, purgeAt, readAt);
    }
  }

  lemma AnswersOne(cfg: Config, s: Sys, e: Event)
    requires !IsPurge(e)
    ensures Answers(cfg, s, [e]) == [Next(cfg, s, e).1]
  {
    assert Answers(cfg, Next(cfg, s, e).0, [e][1..]) == [];
  }

  lemma AnswersAfterPurge(cfg: Config, s: Sys, purge: Event, e: Event)
    requires IsPurge(purge) && !IsPurge(e)
    ensures Answers(cfg, s, [purge, e]) == [Next(cfg, Next(cfg, s, purge).0, e).1]
  {
    assert [purge, e][1..] == [e];
    AnswersOne(cfg, Next(cfg, s, purge).0, e);
  }

  lemma TimelyPurge(cfg: Config, s: Sys, purgeAt: Time, e: Event)
    requires e.Start? && e.request.RefreshGrant? && Unix(purgeAt) <= Unix(e.now)
    ensures Answers(cfg, s, [PurgeRefreshAt(purgeAt), e]) == Answers(cfg, s, [e])
  {
    AnswersOne(cfg, s, e);
    AnswersAfterPurge(cfg, s, PurgeRefreshAt(purgeAt), e);
    RefreshGrantSeesNoPurge(cfg, s.t, PurgeRefresh(s.t, purgeAt), Marks(Unix(purgeAt), Unix(purgeAt), Unix(purgeAt)),
        e.request.token, e.request.grantClientID, e.now);
  }

  /** A token that expires in the second of a later purge, and that the grant still found alive. */
  lemma LatePurge(cfg: Config, purgeAt: Time, readAt: Time)
    requires Unix(purgeAt) > Unix(readAt)
    ensures exists s: Sys, pid: nat, token: string, clientID: string ::
              var grant := Start(pid, RefreshGrant(token, clientID), readAt);
              Answers(cfg, s, [PurgeRefreshAt(purgeAt), grant]) != Answers(cfg, s, [grant])
  {
    var hash := cfg.s256("token");
    var t := Tables(map[], map[], map[], map[], map[hash := RefreshRow("client", "tenant", Unix(purgeAt), false)],
        map[]);
    var s, grant := Sys(t, map[]), Start(0, RefreshGrant("token", "client"), readAt);
    AnswersOne(cfg, s, grant);
    AnswersAfterPurge(cfg, s, PurgeRefreshAt(purgeAt), grant);
    assert Next(cfg, s, grant).1.None?;
    assert Next(cfg, Next(cfg, s, PurgeRefreshAt(purgeAt)).0, grant).1 == Some(BadRequest(INVALID_GRANT));
  }
}
