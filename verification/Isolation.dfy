/** One user's pages never depend on what any other user does. */
module Isolation {
  import opened Domain
  import opened Storage
  import opened Session
  import opened Handlers
  import opened PageLookup
  import opened Renewal

  // ----- application calls -----

  datatype AppCall =
    | LoginCall(answer: LoginAnswer, pages: Option<seq<Page>>, now: Time)
    | SyncCall(tenantID: string, pages: Option<seq<Page>>, now: Time)
    | DeletionCall(metaUserID: string, now: Time)
    | SweepCall(order: seq<string>, window: Time, now: Time, grants: Grants)
    | ToolCall(tenantID: string, query: Query)

  ghost function Apply(cfg: Config, t: Tables, c: AppCall): Tables {
    match c
    case LoginCall(answer, pages, now) => Finish(cfg, t, Then(LoggingIn(RECONNECT)), LoginInputs(answer, now, pages)).0
    case SyncCall(id, pages, now) => Handle(cfg, t, SyncTool(id), now, [(Accounts(pages), now)]).0
    case DeletionCall(m, now) => Handle(cfg, t, DataDeletion(m), now, [(Nothing, now)]).0
    case SweepCall(order, window, now, grants) =>
      SweepAll(t, DueRows(t, order, Unix(now + window), Unix(now - RECHECK_INTERVAL)), grants)
    case ToolCall(_, _) => t
  }

  /** What the tool calls of the tenants in `ids` get to see, in order. */
  ghost function Seen(cfg: Config, t: Tables, calls: seq<AppCall>, ids: set<string>): seq<Resolved>
    decreases |calls|
  {
    if calls == [] then []
    else
      (if calls[0].ToolCall? && calls[0].tenantID in ids then [Resolve(PagesOf(t, calls[0].tenantID), calls[0].query)]
          else [])
      + Seen(cfg, Apply(cfg, t, calls[0]), calls[1..], ids)
  }

  ghost function ApplyAll(cfg: Config, t: Tables, calls: seq<AppCall>): Tables
    decreases |calls|
  {
    if calls == [] then t else ApplyAll(cfg, Apply(cfg, t, calls[0]), calls[1..])
  }

  /** A call of user m, whose tenant ids are `ids`, or of nobody in particular. */
  predicate Concerns(c: AppCall, m: string, ids: set<string>) {
    match c
    case LoginCall(answer, _, _) => answer.User? ==> answer.metaUserID == m
    case SyncCall(id, _, _) => id in ids
    case DeletionCall(who, _) => who == m
    case SweepCall(_, _, _, _) => true
    case ToolCall(id, _) => id in ids
  }

  /** Fresh uuids: exactly the first logins of m draw an id from `ids`. */
  predicate DrawsOwnID(c: AppCall, m: string, ids: set<string>) {
    c.LoginCall? && c.answer.User? ==> (c.answer.newID in ids <==> c.answer.metaUserID == m)
  }

  function Erase(calls: seq<AppCall>, m: string, ids: set<string>): seq<AppCall> {
    if calls == [] then []
    else (if Concerns(calls[0], m, ids) then [calls[0]] else []) + Erase(calls[1..], m, ids)
  }

  // ----- two databases that look alike to user m -----

  /** The ids in `ids` are used by m only, and m is stored under one of them if at all. */
  ghost predicate Users(tenants: map<string, TenantRow>, m: string, ids: set<string>) {
    UniqueUsers(tenants) && forall i :: i in tenants ==> (i in ids <==> tenants[i].metaUserID == m)
  }

  ghost predicate SameTenants(a: map<string, TenantRow>, b: map<string, TenantRow>, ids: set<string>) {
    forall i :: i in ids ==> (i in a <==> i in b) && (i in a ==> a[i] == b[i])
  }

  ghost predicate SamePages(a: map<PageKey, PageRow>, b: map<PageKey, PageRow>, ids: set<string>) {
    forall k: PageKey :: k.tenantID in ids ==> (k in a <==> k in b) && (k in a ==> a[k] == b[k])
  }

  ghost predicate Private(t: Tables, m: string, ids: set<string>) {
    PagesOwned(t) && Users(t.tenants, m, ids)
  }

  ghost predicate Alike(t: Tables, u: Tables, m: string, ids: set<string>) {
    Private(t, m, ids) && Private(u, m, ids) && SameTenants(t.tenants, u.tenants, ids)
        && SamePages(t.pages, u.pages, ids)
  }

  lemma AlikeViews(t: Tables, u: Tables, m: string, ids: set<string>, id: string)
    requires Alike(t, u, m, ids) && id in ids
    ensures PagesOf(t, id) == PagesOf(u, id)
  {
    forall p ensures (p in PagesOf(t, id) <==> p in PagesOf(u, id))
        && (p in PagesOf(t, id) ==> PagesOf(t, id)[p] == PagesOf(u, id)[p]) {
      PagesOfAt(t, id, p);
      PagesOfAt(u, id, p);
    }
    SameView(PagesOf(t, id), PagesOf(u, id));
  }

  lemma AlikeTenantOf(a: map<string, TenantRow>, b: map<string, TenantRow>, m: string, ids: set<string>)
    requires Users(a, m, ids) && Users(b, m, ids) && SameTenants(a, b, ids)
    ensures TenantOf(a, m) == TenantOf(b, m)
  {
    if TenantOf(a, m).Some? { TenantOfUnique(b, TenantOf(a, m).value); }
  }

  lemma UpsertKeepsUsers(a: map<string, TenantRow>, m: string, ids: set<string>, id: string, row: TenantRow)
    requires Users(a, m, ids) && (id in ids <==> row.metaUserID == m) && UpsertTenant(a, id, row).Some?
    ensures Users(UpsertTenant(a, id, row).value, m, ids) && a.Keys <= UpsertTenant(a, id, row).value.Keys
  {
    UpsertKeepsIdentity(a, id, row);
  }

  /** A write for user m keeps the two databases alike, done to both. */
  lemma UpsertAlike(a: map<string, TenantRow>, b: map<string, TenantRow>, m: string, ids: set<string>, id: string,
      row: TenantRow)
    requires Users(a, m, ids) && Users(b, m, ids) && SameTenants(a, b, ids)
    requires row.metaUserID == m && id in ids
    ensures UpsertTenant(a, id, row).Some? && UpsertTenant(b, id, row).Some?
    ensures SameTenants(UpsertTenant(a, id, row).value, UpsertTenant(b, id, row).value, ids)
  {
    AlikeTenantOf(a, b, m, ids);
  }

  /** A write for another user is not noticed. */
  lemma UpsertUnnoticed(a: map<string, TenantRow>, m: string, ids: set<string>, id: string, row: TenantRow)
    requires Users(a, m, ids) && row.metaUserID != m && id !in ids && UpsertTenant(a, id, row).Some?
    ensures SameTenants(UpsertTenant(a, id, row).value, a, ids)
  {}

  lemma PagesAlike(t: Tables, u: Tables, m: string, ids: set<string>, id: string, list: seq<Page>)
    requires Alike(t, u, m, ids) && id in ids
    ensures ReplacePages(t, id, list).Some? <==> ReplacePages(u, id, list).Some?
    ensures ReplacePages(t, id, list).Some? ==>
              Alike(t.(pages := ReplacePages(t, id, list).value), u.(pages := ReplacePages(u, id, list).value), m, ids)
  {
    ReplacePagesExact(t, id, list);
    ReplacePagesExact(u, id, list);
    if ReplacePages(t, id, list).Some? {
      SamePagesAfter(t, u, ids, id, list);
    }
  }

  lemma SamePagesAfter(t: Tables, u: Tables, ids: set<string>, id: string, list: seq<Page>)
    requires SamePages(t.pages, u.pages, ids) && ReplacePages(t, id, list).Some? && ReplacePages(u, id, list).Some?
    ensures SamePages(ReplacePages(t, id, list).value, ReplacePages(u, id, list).value, ids)
  {
    var a, b := PagesWithout(t.pages, id), PagesWithout(u.pages, id);
    InsertPagesMeaning(t, a, id, list);
    InsertPagesMeaning(u, b, id, list);
    var a', b' := ReplacePages(t, id, list).value, ReplacePages(u, id, list).value;
    forall k: PageKey | k.tenantID in ids ensures (k in a' <==> k in b') && (k in a' ==> a'[k] == b'[k]) {
      if k.tenantID == id {
        assert k !in a && k !in b;
        if k in a' {
          var i :| 0 <= i < |list| && list[i].pageID == k.pageID;
          assert k == PageKey(id, list[i].pageID);
        }
        if k in b' {
          var i :| 0 <= i < |list| && list[i].pageID == k.pageID;
          assert k == PageKey(id, list[i].pageID);
        }
      } else {
        assert k in a <==> k in t.pages;
        assert k in b <==> k in u.pages;
      }
    }
  }

  lemma OtherPagesSame(t: Tables, ids: set<string>, id: string, list: seq<Page>)
    requires ReplacePages(t, id, list).Some? && id !in ids
    ensures SamePages(ReplacePages(t, id, list).value, t.pages, ids)
  {
    InsertPagesMeaning(t, PagesWithout(t.pages, id), id, list);
  }

  lemma PagesUnnoticed(t: Tables, u: Tables, m: string, ids: set<string>, id: string, list: seq<Page>)
    requires Alike(t, u, m, ids) && id !in ids
    ensures ReplacePages(t, id, list).Some? ==> Alike(t.(pages := ReplacePages(t, id, list).value), u, m, ids)
  {
    if ReplacePages(t, id, list).Some? {
      OtherPagesSame(t, ids, id, list);
      ReplacePagesExact(t, id, list);
    }
  }

  lemma RenewAlike(t: Tables, u: Tables, m: string, ids: set<string>, id: string, row: TenantRow,
      r: Option<LongLivedToken>, now: Time)
    requires Alike(t, u, m, ids) && row.metaUserID == m && id in ids
    ensures Alike(Renew(t, id, row, r, now), Renew(u, id, row, r, now), m, ids)
  {
    if r.Some? { StoredAlike(t, u, m, ids, id, Renewed(row, r.value, now)); }
  }

  lemma RenewUnnoticed(t: Tables, m: string, ids: set<string>, id: string, row: TenantRow, r: Option<LongLivedToken>,
      now: Time)
    requires Private(t, m, ids) && row.metaUserID != m && id !in ids
    ensures Private(Renew(t, id, row, r, now), m, ids)
    ensures SameTenants(Renew(t, id, row, r, now).tenants, t.tenants, ids) && Renew(t, id, row, r, now).pages == t.pages
  {
    if r.Some? && UpsertTenant(t.tenants, id, Renewed(row, r.value, now)).Some? {
      UpsertUnnoticed(t.tenants, m, ids, id, Renewed(row, r.value, now));
      UpsertKeepsUsers(t.tenants, m, ids, id, Renewed(row, r.value, now));
    }
  }

  ghost predicate Sorted(todo: seq<(string, TenantRow)>, m: string, ids: set<string>) {
    forall i :: 0 <= i < |todo| ==> (todo[i].0 in ids <==> todo[i].1.metaUserID == m)
  }

  lemma {:induction false} SweepAlike(t: Tables, u: Tables, m: string, ids: set<string>,
      todo: seq<(string, TenantRow)>, todo': seq<(string, TenantRow)>, grants: Grants)
    requires Alike(t, u, m, ids) && Sorted(todo, m, ids) && Sorted(todo', m, ids) && Mine(todo, ids) == Mine(todo', ids)
    ensures Alike(SweepAll(t, todo, grants), SweepAll(u, todo', grants), m, ids)
    decreases |todo| + |todo'|
  {
    if todo != [] && todo[0].0 !in ids {
      var r, at := GrantFor(todo[0].0, grants), GrantedAt(todo[0].0, grants);
      RenewUnnoticed(t, m, ids, todo[0].0, todo[0].1, r, at);
      SweepAlike(Renew(t, todo[0].0, todo[0].1, r, at), u, m, ids, todo[1..], todo', grants);
    } else if todo' != [] && todo'[0].0 !in ids {
      var r, at := GrantFor(todo'[0].0, grants), GrantedAt(todo'[0].0, grants);
      RenewUnnoticed(u, m, ids, todo'[0].0, todo'[0].1, r, at);
      SweepAlike(t, Renew(u, todo'[0].0, todo'[0].1, r, at), m, ids, todo, todo'[1..], grants);
    } else if todo != [] {
      assert todo' != [] && todo[0] == Mine(todo, ids)[0] == todo'[0];
      assert Mine(todo[1..], ids) == Mine(todo, ids)[1..] == Mine(todo'[1..], ids);
      var r, at := GrantFor(todo[0].0, grants), GrantedAt(todo[0].0, grants);
      RenewAlike(t, u, m, ids, todo[0].0, todo[0].1, r, at);
      SweepAlike(Renew(t, todo[0].0, todo[0].1, r, at), Renew(u, todo[0].0, todo[0].1, r, at), m, ids, todo[1..],
          todo'[1..], grants);
    }
  }

  function Mine(todo: seq<(string, TenantRow)>, ids: set<string>): seq<(string, TenantRow)> {
    if todo == [] then [] else (if todo[0].0 in ids then [todo[0]] else []) + Mine(todo[1..], ids)
  }

  lemma {:induction false} DueRowsAlike(t: Tables, u: Tables, m: string, ids: set<string>, order: seq<string>,
      before: int, unchecked: int)
    requires Alike(t, u, m, ids)
    ensures Mine(DueRows(t, order, before, unchecked), ids) == Mine(DueRows(u, order, before, unchecked), ids)
  {
    if order != [] {
      DueRowsAlike(t, u, m, ids, order[1..], before, unchecked);
      MineCons(t, ids, order, before, unchecked);
      MineCons(u, ids, order, before, unchecked);
    }
  }

  lemma MineCons(t: Tables, ids: set<string>, order: seq<string>, before: int, unchecked: int)
    requires order != []
    ensures Mine(DueRows(t, order, before, unchecked), ids) ==
            (if order[0] in ids && order[0] in t.tenants
                && Due(t.tenants[order[0]], before, unchecked) then [(order[0], t.tenants[order[0]])] else [])
            + Mine(DueRows(t, order[1..], before, unchecked), ids)
  {
    var rest := DueRows(t, order[1..], before, unchecked);
    if order[0] in t.tenants && Due(t.tenants[order[0]], before, unchecked) {
      assert ([(order[0], t.tenants[order[0]])] + rest)[1..] == rest;
    }
  }

  // ----- calls -----

  lemma CallAlike(cfg: Config, t: Tables, u: Tables, m: string, ids: set<string>, c: AppCall)
    requires Alike(t, u, m, ids) && Concerns(c, m, ids) && DrawsOwnID(c, m, ids)
    ensures Alike(Apply(cfg, t, c), Apply(cfg, u, c), m, ids)
  {
    match c
    case LoginCall(answer, pages, now) => LoginAlike(cfg, t, u, m, ids, answer, pages, now);
    case SyncCall(id, pages, now) => SyncAlike(cfg, t, u, m, ids, id, pages, now);
    case DeletionCall(_, now) => DeletionAlike(cfg, t, u, m, ids, now);
    case SweepCall(order, window, now, grants) => SweepCallAlike(cfg, t, u, m, ids, order, window, now, grants);
    case ToolCall(_, _) =>
  }

  lemma DueRowsSorted(t: Tables, m: string, ids: set<string>, order: seq<string>, before: int, unchecked: int)
    requires Private(t, m, ids)
    ensures Sorted(DueRows(t, order, before, unchecked), m, ids)
  {
  }

  lemma SweepCallAlike(cfg: Config, t: Tables, u: Tables, m: string, ids: set<string>, order: seq<string>,
      window: Time, now: Time, grants: Grants)
    requires Alike(t, u, m, ids)
    ensures var c := SweepCall(order, window, now, grants); Alike(Apply(cfg, t, c), Apply(cfg, u, c), m, ids)
  {
    var before, unchecked := Unix(now + window), Unix(now - RECHECK_INTERVAL);
    DueRowsAlike(t, u, m, ids, order, before, unchecked);
    DueRowsSorted(t, m, ids, order, before, unchecked);
    DueRowsSorted(u, m, ids, order, before, unchecked);
    SweepAlike(t, u, m, ids, DueRows(t, order, before, unchecked), DueRows(u, order, before, unchecked), grants);
  }

  lemma SyncAlike(cfg: Config, t: Tables, u: Tables, m: string, ids: set<string>, id: string,
      pages: Option<seq<Page>>, now: Time)
    requires Alike(t, u, m, ids) && id in ids
    ensures Alike(Apply(cfg, t, SyncCall(id, pages, now)), Apply(cfg, u, SyncCall(id, pages, now)), m, ids)
  {
    SyncIsReplace(cfg, t, id, pages, now);
    SyncIsReplace(cfg, u, id, pages, now);
    if pages.Some? { PagesAlike(t, u, m, ids, id, pages.value); }
  }

  lemma DeleteRowAlike(t: Tables, u: Tables, m: string, ids: set<string>, id: string)
    requires Alike(t, u, m, ids)
    ensures Alike(DeleteTenant(t, id), DeleteTenant(u, id), m, ids)
    ensures id !in ids ==> Alike(DeleteTenant(t, id), u, m, ids)
  {
    DeleteKeepsSound(t, id);
    DeleteKeepsSound(u, id);
  }

  lemma DeletionIsDelete(cfg: Config, t: Tables, m: string, now: Time)
    ensures Apply(cfg, t, DeletionCall(m, now)) ==
            if m != "" && TenantOf(t.tenants, m).Some? then DeleteTenant(t, TenantOf(t.tenants, m).value) else t
  {
    FinishOne(cfg, t, BeginDataDeletion(t, m), Nothing, now);
  }

  lemma DeletionAlike(cfg: Config, t: Tables, u: Tables, m: string, ids: set<string>, now: Time)
    requires Alike(t, u, m, ids)
    ensures Alike(Apply(cfg, t, DeletionCall(m, now)), Apply(cfg, u, DeletionCall(m, now)), m, ids)
  {
    AlikeTenantOf(t.tenants, u.tenants, m, ids);
    DeletionIsDelete(cfg, t, m, now);
    DeletionIsDelete(cfg, u, m, now);
    if TenantOf(t.tenants, m).Some? { DeleteRowAlike(t, u, m, ids, TenantOf(t.tenants, m).value); }
  }

  /** A login without a client is its identification, its upsert and its page synchronization. */
  lemma LoginIsThree(cfg: Config, t: Tables, answer: LoginAnswer, pages: Option<seq<Page>>, now: Time)
    ensures var o := Identify(cfg, t, RECONNECT, answer, now);
            Apply(cfg, t, LoginCall(answer, pages, now)) ==
            if o.Done? || UpsertTenant(t.tenants, o.proc.id, o.proc.row).None? then t
            else
              var t' := t.(tenants := UpsertTenant(t.tenants, o.proc.id, o.proc.row).value);
              if pages.Some?
                  && ReplacePages(t', o.proc.id, pages.value).Some? then
                  t'.(pages := ReplacePages(t', o.proc.id, pages.value).value) else t'
  {
    FinishLogin(cfg, t, RECONNECT, answer, now, pages);
  }

  lemma StoredAlike(t: Tables, u: Tables, m: string, ids: set<string>, id: string, row: TenantRow)
    requires Alike(t, u, m, ids) && row.metaUserID == m && id in ids
    ensures UpsertTenant(t.tenants, id, row).Some? && UpsertTenant(u.tenants, id, row).Some?
    ensures Alike(t.(tenants := UpsertTenant(t.tenants, id, row).value),
            u.(tenants := UpsertTenant(u.tenants, id, row).value), m, ids)
  {
    UpsertAlike(t.tenants, u.tenants, m, ids, id, row);
    UpsertKeepsUsers(t.tenants, m, ids, id, row);
    UpsertKeepsUsers(u.tenants, m, ids, id, row);
  }

  lemma LoginAlike(cfg: Config, t: Tables, u: Tables, m: string, ids: set<string>, answer: LoginAnswer,
      pages: Option<seq<Page>>, now: Time)
    requires Alike(t, u, m, ids) && (answer.User? ==> answer.metaUserID == m && answer.newID in ids)
    ensures var c := LoginCall(answer, pages, now); Alike(Apply(cfg, t, c), Apply(cfg, u, c), m, ids)
  {
    LoginIsThree(cfg, t, answer, pages, now);
    LoginIsThree(cfg, u, answer, pages, now);
    AlikeTenantOf(t.tenants, u.tenants, m, ids);
    var o := Identify(cfg, t, RECONNECT, answer, now);
    assert o == Identify(cfg, u, RECONNECT, answer, now);
    if o.Then? {
      var id, row := o.proc.id, o.proc.row;
      StoredAlike(t, u, m, ids, id, row);
      var t1 := t.(tenants := UpsertTenant(t.tenants, id, row).value);
      var u1 := u.(tenants := UpsertTenant(u.tenants, id, row).value);
      if pages.Some? { PagesAlike(t1, u1, m, ids, id, pages.value); }
    }
  }

  lemma CallUnnoticed(cfg: Config, t: Tables, u: Tables, m: string, ids: set<string>, c: AppCall)
    requires Alike(t, u, m, ids) && !Concerns(c, m, ids) && DrawsOwnID(c, m, ids)
    ensures Alike(Apply(cfg, t, c), u, m, ids)
  {
    match c
    case LoginCall(answer, pages, now) => LoginUnnoticed(cfg, t, u, m, ids, answer, pages, now);
    case SyncCall(id, pages, now) => SyncUnnoticed(cfg, t, u, m, ids, id, pages, now);
    case DeletionCall(who, now) => DeletionUnnoticed(cfg, t, u, m, ids, who, now);
    case ToolCall(_, _) =>
  }

  lemma SyncIsReplace(cfg: Config, t: Tables, id: string, pages: Option<seq<Page>>, now: Time)
    ensures Apply(cfg, t, SyncCall(id, pages, now)) ==
            if id in t.tenants && pages.Some?
                && ReplacePages(t, id, pages.value).Some? then t.(pages := ReplacePages(t, id, pages.value).value)
                else t
  {
    FinishOne(cfg, t, if id in t.tenants then Then(SyncingTool(id)) else Done(Response(500, "")), Accounts(pages), now);
  }

  lemma SyncUnnoticed(cfg: Config, t: Tables, u: Tables, m: string, ids: set<string>, id: string,
      pages: Option<seq<Page>>, now: Time)
    requires Alike(t, u, m, ids) && id !in ids
    ensures Alike(Apply(cfg, t, SyncCall(id, pages, now)), u, m, ids)
  {
    SyncIsReplace(cfg, t, id, pages, now);
    if pages.Some? { PagesUnnoticed(t, u, m, ids, id, pages.value); }
  }

  lemma DeletionUnnoticed(cfg: Config, t: Tables, u: Tables, m: string, ids: set<string>, who: string, now: Time)
    requires Alike(t, u, m, ids) && who != m
    ensures Alike(Apply(cfg, t, DeletionCall(who, now)), u, m, ids)
  {
    DeletionIsDelete(cfg, t, who, now);
    if TenantOf(t.tenants, who).Some? { DeleteRowAlike(t, u, m, ids, TenantOf(t.tenants, who).value); }
  }

  lemma LoginUnnoticed(cfg: Config, t: Tables, u: Tables, m: string, ids: set<string>, answer: LoginAnswer,
      pages: Option<seq<Page>>, now: Time)
    requires Alike(t, u, m, ids) && answer.User? && answer.metaUserID != m && answer.newID !in ids
    ensures Alike(Apply(cfg, t, LoginCall(answer, pages, now)), u, m, ids)
  {
    FinishLogin(cfg, t, RECONNECT, answer, now, pages);
    var o := Identify(cfg, t, RECONNECT, answer, now);
    if o.Then? {
      var id, row := o.proc.id, o.proc.row;
      var after := UpsertTenant(t.tenants, id, row);
      if after.Some? {
        UpsertUnnoticed(t.tenants, m, ids, id, row);
        UpsertKeepsUsers(t.tenants, m, ids, id, row);
        if pages.Some? { PagesUnnoticed(t.(tenants := after.value), u, m, ids, id, pages.value); }
      }
    }
  }

  lemma {:induction false} RunsAlike(cfg: Config, t: Tables, u: Tables, m: string, ids: set<string>,
      calls: seq<AppCall>)
    requires Alike(t, u, m, ids)
    requires forall i :: 0 <= i < |calls| ==> DrawsOwnID(calls[i], m, ids)
    ensures Seen(cfg, t, calls, ids) == Seen(cfg, u, Erase(calls, m, ids), ids)
    ensures Alike(ApplyAll(cfg, t, calls), ApplyAll(cfg, u, Erase(calls, m, ids)), m, ids)
    decreases |calls|
  {
    if calls != [] {
      var c, rest := calls[0], calls[1..];
      assert DrawsOwnID(c, m, ids);
      if Concerns(c, m, ids) {
        assert Erase(calls, m, ids)[0] == c && Erase(calls, m, ids)[1..] == Erase(rest, m, ids);
        if c.ToolCall? { AlikeViews(t, u, m, ids, c.tenantID); }
        CallAlike(cfg, t, u, m, ids, c);
        RunsAlike(cfg, Apply(cfg, t, c), Apply(cfg, u, c), m, ids, rest);
      } else {
        assert Erase(calls, m, ids) == Erase(rest, m, ids);
        CallUnnoticed(cfg, t, u, m, ids, c);
        RunsAlike(cfg, Apply(cfg, t, c), u, m, ids, rest);
      }
    }
  }

  /** Tenant isolation: erase every other user's logins, syncs, deletions and tool calls from a run, and
      user m's tools resolve to the same pages with the same tokens, and end with the same page lists. */
  lemma TenantIsolation(cfg: Config, t: Tables, m: string, ids: set<string>, calls: seq<AppCall>)
    requires Private(t, m, ids)
    requires forall i :: 0 <= i < |calls| ==> DrawsOwnID(calls[i], m, ids)
    ensures Seen(cfg, t, calls, ids) == Seen(cfg, t, Erase(calls, m, ids), ids)
    ensures forall id :: id in ids ==>
            PagesOf(ApplyAll(cfg, t, calls), id) == PagesOf(ApplyAll(cfg, t, Erase(calls, m, ids)), id)
  {
    RunsAlike(cfg, t, t, m, ids, calls);
    forall id | id in ids
        ensures PagesOf(ApplyAll(cfg, t, calls), id) == PagesOf(ApplyAll(cfg, t, Erase(calls, m, ids)), id) {
      AlikeViews(ApplyAll(cfg, t, calls), ApplyAll(cfg, t, Erase(calls, m, ids)), m, ids, id);
    }
  }
}
