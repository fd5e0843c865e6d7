/** Two first logins of one user that overlap: which of them works on under an id no tenant has. */
module FirstLogins {
  import opened Domain
  import opened Storage
  import opened Session
  import opened Deletion

  /** A login is stored under the id it works on with exactly when nobody stored its user under another id first. */
  lemma WriteKeepsID(t: Tables, req: OAuthRequest, id: string, row: TenantRow)
    requires Sound(t) && UpsertTenant(t.tenants, id, row).Some?
    ensures TenantOf(Upsert(t, req, id, row).0.tenants, row.metaUserID) == Some(id)
            <==> TenantOf(t.tenants, row.metaUserID) in {None, Some(id)}
  {
    UpsertKeepsIdentity(t.tenants, id, row);
    var after := UpsertTenant(t.tenants, id, row).value;
    match TenantOf(t.tenants, row.metaUserID)
    case None => TenantOfUnique(after, id);
    case Some(stored) => TenantOfUnique(after, stored);
  }

  // ----- an id that is not stored and that nobody will store -----

  /** A handler that may still write a tenant row under this id. */
  predicate Carries(p: Proc, id: string) {
    (p.Upserting? && p.id == id) || (p.Sweeping? && exists k :: 0 <= k < |p.todo| && p.todo[k].0 == id)
  }

  ghost predicate Lost(s: Sys, id: string) {
    id !in s.t.tenants && forall pid :: pid in s.procs ==> !Carries(s.procs[pid], id)
  }

  lemma BeginKeepsLost(cfg: Config, t: Tables, r: Request, now: Time, id: string)
    requires id !in t.tenants
    ensures id !in Begin(cfg, t, r, now).0.tenants
    ensures var o := Begin(cfg, t, r, now).1; o.Then? ==> !Carries(o.proc, id)
  {
    match r
    case CodeGrant(_, _, _, _, _) =>
    case RefreshGrant(_, _) =>
    case _ =>
  }

  lemma ResumeKeepsLost(cfg: Config, t: Tables, p: Proc, input: Input, now: Time, id: string)
    requires id !in t.tenants && !Carries(p, id)
    requires input.Login? && input.answer.User? ==> input.answer.newID != id
    ensures id !in Resume(cfg, t, p, input, now).0.tenants
    ensures var o := Resume(cfg, t, p, input, now).1; o.Then? ==> !Carries(o.proc, id)
  {
    match p
    case Sweeping(todo) =>
      if todo != [] {
        assert todo[0].0 != id;
        assert forall k :: 0 <= k < |todo| - 1 ==> todo[1..][k] == todo[k + 1];
      }
    case _ =>
  }

  lemma EventKeepsLost(cfg: Config, s: Sys, e: Event, id: string)
    requires Lost(s, id) && NeverDrawn([e], id)
    ensures Lost(Next(cfg, s, e).0, id)
  {
    assert e == [e][0];
    if Enabled(s, e) {
      if e.Start? { BeginKeepsLost(cfg, s.t, e.request, e.now, id); }
      else if e.Step? { ResumeKeepsLost(cfg, s.t, s.procs[e.pid], e.input, e.now, id); }
    }
  }

  /** No later event of any run stores a tenant under it. */
  lemma {:induction false} LostForever(cfg: Config, s: Sys, events: seq<Event>, id: string)
    requires Lost(s, id) && NeverDrawn(events, id)
    ensures Lost(Run(cfg, s, events), id)
    decreases |events|
  {
    if events != [] {
      EventKeepsLost(cfg, s, events[0], id);
      assert NeverDrawn(events[1..], id);
      LostForever(cfg, Next(cfg, s, events[0]).0, events[1..], id);
    }
  }

  // ----- the login that came second -----

  /** Handler `pid` is about to write a first login of a user whom somebody stored meanwhile under another id. */
  ghost predicate Overtaken(s: Sys, pid: nat) {
    && pid in s.procs && s.procs[pid].Upserting?
    && var p := s.procs[pid];
       && TenantOf(s.t.tenants, p.row.metaUserID).Some? && p.id !in s.t.tenants
       && forall other :: other in s.procs && other != pid ==> !Carries(s.procs[other], p.id)
  }

  /** Its write succeeds and loses its id for ever. When its pages come, at any later point of any run, it is refused
      exactly when there are pages to store or none can be read; a user without pages goes on to get a code. */
  lemma LostFirstLogin(cfg: Config, s: Sys, pid: nat, now: Time, events: seq<Event>, pages: Option<seq<Page>>,
      later: Time)
    requires Overtaken(s, pid) && NeverDrawn(events, s.procs[pid].id)
    ensures var req, id := s.procs[pid].req, s.procs[pid].id;
            var s1 := Next(cfg, s, Step(pid, Nothing, now)).0;
            var s2 := Run(cfg, s1, events);
            && s1.procs[pid] == Syncing(req, id) && id !in s1.t.tenants && id !in s2.t.tenants
            && Resume(cfg, s2.t, Syncing(req, id), Accounts(pages), later).1 ==
                 if pages != Some([]) then Done(Response(502, ""))
                 else if IsReconnect(req) then Done(Response(200, "")) else Then(Issuing(req, id))
  {
    var id := s.procs[pid].id;
    var s1 := Next(cfg, s, Step(pid, Nothing, now)).0;
    assert Lost(s1, id);
    LostForever(cfg, s1, events, id);
    var t := Run(cfg, s1, events).t;
    if pages.Some? { InsertPagesMeaning(t, PagesWithout(t.pages, id), id, pages.value); }
  }

  // ----- it happens -----

  /** What the two dialogs answer: one user, a fresh id each. */
  datatype TwoLogins = TwoLogins(first: nat, second: nat, user: string, name: string, longLived: LongLivedToken,
      id1: string, id2: string)

  function LoginOf(l: TwoLogins, id: string): Input { Login(User(l.user, l.name, l.longLived, id)) }

  /** Both are told apart only by their ids, and neither user nor ids are stored or carried by anybody. */
  ghost predicate Ready(cfg: Config, s: Sys, l: TwoLogins) {
    && l.first in s.procs && s.procs[l.first].LoggingIn? && l.second in s.procs && s.procs[l.second].LoggingIn?
        && l.first != l.second
    && l.user != "" && cfg.allowed(l.user) && TenantOf(s.t.tenants, l.user).None?
    && l.id1 != l.id2 && l.id1 !in s.t.tenants && Lost(s, l.id2)
  }

  function Overlapping(l: TwoLogins, now: Time): seq<Event> {
    [Step(l.first, LoginOf(l, l.id1), now), Step(l.second, LoginOf(l, l.id2), now), Step(l.first, Nothing, now),
        Step(l.second, Nothing, now)]
  }

  function UserRow(l: TwoLogins, now: Time): TenantRow {
    TenantRow(l.user, l.name, l.longLived.token, Unix(now), Unix(now), DeadlineFrom(now, l.longLived.expiresIn))
  }

  lemma BothIdentified(cfg: Config, s: Sys, l: TwoLogins, now: Time)
    requires Ready(cfg, s, l)
    ensures Run(cfg, s, Overlapping(l, now)[..2]) ==
            s.(procs := s.procs[l.first := Upserting(s.procs[l.first].req, l.id1, UserRow(l, now))]
                               [l.second := Upserting(s.procs[l.second].req, l.id2, UserRow(l, now))])
  {
    var e, f := Step(l.first, LoginOf(l, l.id1), now), Step(l.second, LoginOf(l, l.id2), now);
    assert Overlapping(l, now)[..2] == [e, f];
    RunTwo(cfg, s, e, f);
    var s1 := Next(cfg, s, e).0;
    assert s1 == s.(procs := s.procs[l.first := Upserting(s.procs[l.first].req, l.id1, UserRow(l, now))]);
  }

  /** Four store calls of two handlers: the second login ends with an id that is not stored and never will be. */
  lemma TwoFirstLogins(cfg: Config, s: Sys, l: TwoLogins, now: Time)
    requires Ready(cfg, s, l)
    ensures var s' := Run(cfg, s, Overlapping(l, now));
            && s'.procs ==
                s.procs[l.first := Syncing(s.procs[l.first].req, l.id1)][l.second := Syncing(s.procs[l.second].req,
                l.id2)]
            && s'.t.codes == s.t.codes && TenantOf(s'.t.tenants, l.user) == Some(l.id1) && Lost(s', l.id2)
  {
    var events := Overlapping(l, now);
    var e, f := Step(l.first, Nothing, now), Step(l.second, Nothing, now);
    assert events == events[..2] + [e, f];
    RunAppend(cfg, s, events[..2], [e, f]);
    BothIdentified(cfg, s, l, now);
    var s2 := Run(cfg, s, events[..2]);
    RunTwo(cfg, s2, e, f);
    FirstRowStays(s.t.tenants, l, UserRow(l, now));
    var s3 := Next(cfg, s2, e).0;
    assert s3 == Sys(s.t.(tenants := s.t.tenants[l.id1 := UserRow(l, now)]),
        s2.procs[l.first := Syncing(s.procs[l.first].req, l.id1)]);
    var s4 := Next(cfg, s3, f).0;
    assert s4.procs == s3.procs[l.second := Syncing(s.procs[l.second].req, l.id2)];
  }

  /** The two writes: the first creates the row, the second only updates it. */
  lemma FirstRowStays(tenants: map<string, TenantRow>, l: TwoLogins, row: TenantRow)
    requires TenantOf(tenants, l.user).None? && l.id1 !in tenants && l.id2 !in tenants && l.id1 != l.id2
            && row.metaUserID == l.user
    ensures UpsertTenant(tenants, l.id1, row) == Some(tenants[l.id1 := row])
    ensures var after := UpsertTenant(tenants[l.id1 := row], l.id2, row);
            after.Some? && l.id2 !in after.value && TenantOf(after.value, l.user) == Some(l.id1)
  {
    var once := tenants[l.id1 := row];
    assert forall i :: i in once && once[i].metaUserID == l.user ==> i == l.id1;
    assert once[l.id1].metaUserID == l.user;
    assert TenantOf(once, l.user) == Some(l.id1);
    var after := UpsertTenant(once, l.id2, row).value;
    assert after == once[l.id1 := row.(createdAt := once[l.id1].createdAt)];
    assert forall i :: i in after && after[i].metaUserID == l.user ==> i == l.id1;
    assert after[l.id1].metaUserID == l.user;
  }

  /** If that user manages no page, the second client gets a code for it. */
  lemma CodeForNobody(cfg: Config, s: Sys, l: TwoLogins, now: Time, drawn: string)
    requires Ready(cfg, s, l) && !IsReconnect(s.procs[l.second].req) && drawn !in s.t.codes
    ensures var s' :=
            Run(cfg, s, Overlapping(l, now) + [Step(l.second, Accounts(Some([])), now),
            Step(l.second, Secret(drawn), now)]);
            && drawn in s'.t.codes && s'.t.codes[drawn].tenantID == l.id2
                && s'.t.codes[drawn].clientID == s.procs[l.second].req.clientID
            && forall events :: NeverDrawn(events, l.id2) ==> l.id2 !in Run(cfg, s', events).t.tenants
  {
    var sync, issue := Step(l.second, Accounts(Some([])), now), Step(l.second, Secret(drawn), now);
    TwoFirstLogins(cfg, s, l, now);
    RunAppend(cfg, s, Overlapping(l, now), [sync, issue]);
    var s4 := Run(cfg, s, Overlapping(l, now));
    RunTwo(cfg, s4, sync, issue);
    EventKeepsLost(cfg, s4, sync, l.id2);
    var s5 := Next(cfg, s4, sync).0;
    assert s5.procs[l.second] == Issuing(s.procs[l.second].req, l.id2) && s5.t.codes == s.t.codes;
    EventKeepsLost(cfg, s5, issue, l.id2);
    var s6 := Next(cfg, s5, issue).0;
    forall events | NeverDrawn(events, l.id2)
        ensures l.id2 !in Run(cfg, s6, events).t.tenants { LostForever(cfg, s6, events, l.id2); }
  }
}
