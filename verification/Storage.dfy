/** The SQLite tables. Each function below is one statement or one transaction on them. */
module Storage {
  import opened Domain

  datatype TenantRow = TenantRow(
    metaUserID: string, displayName: string, userToken: string,
    createdAt: int, updatedAt: int, expiresAt: int)

  datatype PageKey = PageKey(tenantID: string, pageID: string)
  datatype PageRow = PageRow(
    name: string, igUserID: string, igUsername: string, pageToken: string, syncedAt: int)

  datatype ClientRow = ClientRow(name: string, redirectURIs: seq<string>, createdAt: int)

  datatype CodeRow = CodeRow(
    clientID: string, tenantID: string, redirectURI: string,
    codeChallenge: string, resource: string, expiresAt: int)

  datatype RefreshRow = RefreshRow(clientID: string, tenantID: string, expiresAt: int, revoked: bool)

  datatype LoginRow = LoginRow(request: OAuthRequest, expiresAt: int)

  datatype Tables = Tables(
    tenants: map<string, TenantRow>,
    pages: map<PageKey, PageRow>,
    clients: map<string, ClientRow>,
    codes: map<string, CodeRow>,
    refresh: map<string, RefreshRow>,
    logins: map<string, LoginRow>)

  /** meta_user_id is UNIQUE. */
  ghost predicate UniqueUsers(tenants: map<string, TenantRow>) {
    forall i, j :: i in tenants && j in tenants && tenants[i].metaUserID == tenants[j].metaUserID ==> i == j
  }

  /** pages.tenant_id REFERENCES tenants(id). */
  ghost predicate PagesOwned(t: Tables) {
    forall k :: k in t.pages ==> k.tenantID in t.tenants
  }

  /** The declared constraints of the schema that span rows. */
  ghost predicate Sound(t: Tables) {
    UniqueUsers(t.tenants) && PagesOwned(t)
  }

  // ----- tenants -----

  /** The id a Facebook user is stored under. */
  ghost function TenantOf(tenants: map<string, TenantRow>, metaUserID: string): (r: Option<string>)
    ensures r.Some? ==> r.value in tenants && tenants[r.value].metaUserID == metaUserID
    ensures r.None? ==> forall id :: id in tenants ==> tenants[id].metaUserID != metaUserID
  {
    if exists id :: id in tenants && tenants[id].metaUserID == metaUserID then
      var id :| id in tenants && tenants[id].metaUserID == metaUserID;
      Some(id)
    else
      None
  }

  /** INSERT ... ON CONFLICT(meta_user_id) DO UPDATE; None when the id is taken by another user. */
  ghost function UpsertTenant(tenants: map<string, TenantRow>, id: string, row: TenantRow): Option<map<string,
      TenantRow>> {
    if id in tenants && tenants[id].metaUserID != row.metaUserID then
      None
    else
      match TenantOf(tenants, row.metaUserID)
      case Some(stored) => Some(tenants[stored := row.(createdAt := tenants[stored].createdAt)])
      case None => Some(tenants[id := row])
  }

  /** The WHERE clause of the renewal query. */
  predicate Due(row: TenantRow, expiringBefore: int, uncheckedBefore: int) {
    || (row.expiresAt > 0 && row.expiresAt < expiringBefore)
    || (row.expiresAt == 0 && row.updatedAt < uncheckedBefore)
  }

  function CodesWithout(codes: map<string, CodeRow>, id: string): map<string, CodeRow> {
    map c | c in codes && codes[c].tenantID != id :: codes[c]
  }

  function RefreshWithout(refresh: map<string, RefreshRow>, id: string): map<string, RefreshRow> {
    map h | h in refresh && refresh[h].tenantID != id :: refresh[h]
  }

  function PagesWithout(pages: map<PageKey, PageRow>, id: string): map<PageKey, PageRow> {
    map k | k in pages && k.tenantID != id :: pages[k]
  }

  function DeleteTenant(t: Tables, id: string): Tables {
    t.(refresh := RefreshWithout(t.refresh, id),
       codes := CodesWithout(t.codes, id),
       pages := PagesWithout(t.pages, id),
       tenants := t.tenants - {id})
  }

  // ----- pages -----

  function RowOf(p: Page): PageRow {
    PageRow(p.name, p.igUserID, p.igUsername, p.pageToken, Unix(p.syncedAt))
  }

  /** The row tells of a page what Meta told, its token in the token column, and when to the second. */
  predicate Shows(row: PageRow, p: Page) {
    && row.name == p.name && row.igUserID == p.igUserID && row.igUsername == p.igUsername
    && row.pageToken == p.pageToken && Instant(row.syncedAt) <= p.syncedAt < Instant(row.syncedAt) + SECOND
  }

  lemma RowShows(p: Page)
    ensures Shows(RowOf(p), p)
  {
    FloorLoss(p.syncedAt);
  }

  /** Inserting the listed pages one by one; None as soon as one violates a key. */
  function InsertPages(t: Tables, base: map<PageKey, PageRow>, tenantID: string, list: seq<Page>): Option<map<PageKey,
      PageRow>> {
    if list == [] then
      Some(base)
    else
      var key := PageKey(tenantID, list[|list| - 1].pageID);
      match InsertPages(t, base, tenantID, list[..|list| - 1])
      case None => None
      case Some(m) =>
        if tenantID !in t.tenants || key in m then None else Some(m[key := RowOf(list[|list| - 1])])
  }

  /** DELETE then INSERTs in one transaction; None when it rolls back. */
  function ReplacePages(t: Tables, tenantID: string, list: seq<Page>): Option<map<PageKey, PageRow>> {
    InsertPages(t, PagesWithout(t.pages, tenantID), tenantID, list)
  }

  /** The rows WHERE tenant_id = ? selects, by page id. */
  function PagesOf(t: Tables, tenantID: string): map<string, PageRow> {
    map k | k in t.pages && k.tenantID == tenantID :: k.pageID := t.pages[k]
  }

  // ----- single-use credentials -----

  function ConsumeCode(t: Tables, code: string): (Tables, Option<CodeRow>) {
    if code in t.codes then (t.(codes := t.codes - {code}), Some(t.codes[code])) else (t, None)
  }

  function ConsumeLogin(t: Tables, state: string): (Tables, Option<LoginRow>) {
    if state in t.logins then (t.(logins := t.logins - {state}), Some(t.logins[state])) else (t, None)
  }

  function RotateRefresh(t: Tables, hash: string, now: Time): (Tables, Option<RefreshRow>) {
    if hash in t.refresh && !t.refresh[hash].revoked && t.refresh[hash].expiresAt > Unix(now) then
      var row := t.refresh[hash].(revoked := true);
      (t.(refresh := t.refresh[hash := row]), Some(row))
    else
      (t, None)
  }

  // ----- housekeeping: three separate statements -----

  function PurgeCodes(t: Tables, now: Time): Tables {
    t.(codes := map c | c in t.codes && t.codes[c].expiresAt > Unix(now) :: t.codes[c])
  }

  function PurgeLogins(t: Tables, now: Time): Tables {
    t.(logins := map s | s in t.logins && t.logins[s].expiresAt > Unix(now) :: t.logins[s])
  }

  function PurgeRefresh(t: Tables, now: Time): Tables {
    t.(refresh := map h | h in t.refresh && t.refresh[h].expiresAt > Unix(now) :: t.refresh[h])
  }

  // ----- what the statements keep -----

  lemma TenantOfUnique(tenants: map<string, TenantRow>, id: string)
    requires UniqueUsers(tenants) && id in tenants
    ensures TenantOf(tenants, tenants[id].metaUserID) == Some(id)
  {}

  /** The upsert touches the row of one user only, never renames it, and keeps users unique. */
  lemma UpsertKeepsIdentity(tenants: map<string, TenantRow>, id: string, row: TenantRow)
    requires UniqueUsers(tenants)
    requires UpsertTenant(tenants, id, row).Some?
    ensures
      var after := UpsertTenant(tenants, id, row).value;
      && UniqueUsers(after)
      && tenants.Keys <= after.Keys
      && (forall i :: i in tenants ==> after[i].metaUserID == tenants[i].metaUserID)
      && (forall i :: i in tenants && tenants[i].metaUserID != row.metaUserID ==> after[i] == tenants[i])
      && after.Keys == tenants.Keys + (if TenantOf(tenants, row.metaUserID).Some? then {} else {id})
  {}

  /** The rows of `base` as they were, and one row for each listed page. */
  ghost predicate HoldsPages(m: map<PageKey, PageRow>, base: map<PageKey, PageRow>, tenantID: string, list: seq<Page>) {
    && (forall k :: k in base ==> k in m && m[k] == base[k])
    && (forall k :: k in m && k !in base ==>
        k.tenantID == tenantID && exists i :: 0 <= i < |list| && list[i].pageID == k.pageID)
    && (forall i :: 0 <= i < |list| ==>
        PageKey(tenantID, list[i].pageID) in m && m[PageKey(tenantID, list[i].pageID)] == RowOf(list[i]))
  }

  predicate DistinctPages(list: seq<Page>) {
    forall i, j :: 0 <= i < j < |list| ==> list[i].pageID != list[j].pageID
  }

  lemma HoldsOneMore(m: map<PageKey, PageRow>, base: map<PageKey, PageRow>, tenantID: string, list: seq<Page>,
      page: Page)
    requires HoldsPages(m, base, tenantID, list) && PageKey(tenantID, page.pageID) !in m
    ensures HoldsPages(m[PageKey(tenantID, page.pageID) := RowOf(page)], base, tenantID, list + [page])
  {
    var m', list' := m[PageKey(tenantID, page.pageID) := RowOf(page)], list + [page];
    forall k | k in m' && k !in base
        ensures k.tenantID == tenantID && exists i :: 0 <= i < |list'| && list'[i].pageID == k.pageID {
      if k in m {
        var i :| 0 <= i < |list| && list[i].pageID == k.pageID;
        assert list'[i].pageID == k.pageID;
      } else {
        assert list'[|list|].pageID == k.pageID;
      }
    }
  }

  lemma KeyIsListed(m: map<PageKey, PageRow>, base: map<PageKey, PageRow>, tenantID: string, list: seq<Page>, p: string)
    requires HoldsPages(m, base, tenantID, list) && forall k :: k in base ==> k.tenantID != tenantID
    ensures PageKey(tenantID, p) in m <==> exists i :: 0 <= i < |list| && list[i].pageID == p
  {
  }

  lemma DistinctOneMore(list: seq<Page>, page: Page)
    ensures DistinctPages(list + [page])
            <==> DistinctPages(list) && !exists i :: 0 <= i < |list| && list[i].pageID == page.pageID
  {
    var list' := list + [page];
    assert forall i :: 0 <= i < |list| ==> list'[i] == list[i];
    assert list'[|list|] == page;
    if DistinctPages(list') {
      forall i, j | 0 <= i < j < |list|
          ensures list[i].pageID != list[j].pageID { assert list'[i].pageID != list'[j].pageID; }
      forall i | 0 <= i < |list|
          ensures list[i].pageID != page.pageID { assert list'[i].pageID != list'[|list|].pageID; }
    }
  }

  lemma {:induction false} InsertPagesMeaning(t: Tables, base: map<PageKey, PageRow>, tenantID: string, list: seq<Page>)
    requires forall k :: k in base ==> k.tenantID != tenantID
    ensures InsertPages(t, base, tenantID, list).Some? <==> (list == [] || tenantID in t.tenants) && DistinctPages(list)
    ensures InsertPages(t, base, tenantID, list).Some? ==>
            HoldsPages(InsertPages(t, base, tenantID, list).value, base, tenantID, list)
  {
    if list != [] {
      var init, last := list[..|list| - 1], list[|list| - 1];
      assert list == init + [last];
      InsertPagesMeaning(t, base, tenantID, init);
      DistinctOneMore(init, last);
      match InsertPages(t, base, tenantID, init)
      case None =>
      case Some(m) =>
        KeyIsListed(m, base, tenantID, init, last.pageID);
        if PageKey(tenantID, last.pageID) !in m { HoldsOneMore(m, base, tenantID, init, last); }
    }
  }

  lemma PagesOfAt(t: Tables, id: string, p: string)
    ensures p in PagesOf(t, id) <==> PageKey(id, p) in t.pages
    ensures p in PagesOf(t, id) ==> PagesOf(t, id)[p] == t.pages[PageKey(id, p)]
  {
    if p in PagesOf(t, id) {
      var k :| k in t.pages && k.tenantID == id && k.pageID == p;
      assert k == PageKey(id, p);
    }
    assert PageKey(id, p).pageID == p;
  }

  lemma SameView(a: map<string, PageRow>, b: map<string, PageRow>)
    requires forall p :: (p in a <==> p in b) && (p in a ==> a[p] == b[p])
    ensures a == b
  {}

  lemma ReplacedView(t: Tables, tenantID: string, list: seq<Page>, m: map<PageKey, PageRow>)
    requires HoldsPages(m, PagesWithout(t.pages, tenantID), tenantID, list)
    ensures var view := PagesOf(t.(pages := m), tenantID);
            && view.Keys == (set i | 0 <= i < |list| :: list[i].pageID)
            && forall i :: 0 <= i < |list| ==> list[i].pageID in view && view[list[i].pageID] == RowOf(list[i])
  {
    var after := t.(pages := m);
    forall p ensures p in PagesOf(after, tenantID) <==> exists i :: 0 <= i < |list| && list[i].pageID == p {
      PagesOfAt(after, tenantID, p);
      KeyIsListed(m, PagesWithout(t.pages, tenantID), tenantID, list, p);
    }
    forall i | 0 <= i < |list| ensures PagesOf(after, tenantID)[list[i].pageID] == RowOf(list[i]) {
      PagesOfAt(after, tenantID, list[i].pageID);
    }
  }

  lemma OtherView(t: Tables, tenantID: string, list: seq<Page>, m: map<PageKey, PageRow>, other: string)
    requires HoldsPages(m, PagesWithout(t.pages, tenantID), tenantID, list) && other != tenantID
    ensures PagesOf(t.(pages := m), other) == PagesOf(t, other)
  {
    var after := t.(pages := m);
    forall p ensures (p in PagesOf(after, other) <==> p in PagesOf(t, other))
        && (p in PagesOf(after, other) ==> PagesOf(after, other)[p] == PagesOf(t, other)[p]) {
      PagesOfAt(after, other, p);
      PagesOfAt(t, other, p);
    }
    SameView(PagesOf(after, other), PagesOf(t, other));
  }

  lemma OwnedAfter(t: Tables, tenantID: string, list: seq<Page>, m: map<PageKey, PageRow>)
    requires HoldsPages(m, PagesWithout(t.pages, tenantID), tenantID, list) && (list == [] || tenantID in t.tenants)
            && PagesOwned(t)
    ensures PagesOwned(t.(pages := m))
  {
    forall k | k in m ensures k.tenantID in t.tenants {
      if k in PagesWithout(t.pages, tenantID) { assert k in t.pages; }
    }
  }

  /** That tenant has exactly the given pages, and every other tenant's rows are as they were. */
  ghost predicate Replaced(t: Tables, after: Tables, tenantID: string, list: seq<Page>) {
    && PagesOf(after, tenantID).Keys == (set i | 0 <= i < |list| :: list[i].pageID)
    && (forall i :: 0 <= i < |list| ==>
        PageKey(tenantID, list[i].pageID) in after.pages
        && Shows(after.pages[PageKey(tenantID, list[i].pageID)], list[i]))
    && (forall other :: other != tenantID ==> PagesOf(after, other) == PagesOf(t, other))
    && (PagesOwned(t) ==> PagesOwned(after))
  }

  lemma HeldIsReplaced(t: Tables, tenantID: string, list: seq<Page>, m: map<PageKey, PageRow>)
    requires HoldsPages(m, PagesWithout(t.pages, tenantID), tenantID, list) && (list == [] || tenantID in t.tenants)
    ensures Replaced(t, t.(pages := m), tenantID, list)
  {
    ReplacedView(t, tenantID, list, m);
    forall i | 0 <= i < |list| ensures Shows(m[PageKey(tenantID, list[i].pageID)], list[i]) { RowShows(list[i]); }
    forall other | other != tenantID
        ensures PagesOf(t.(pages := m), other) == PagesOf(t, other) { OtherView(t, tenantID, list, m, other); }
    if PagesOwned(t) { OwnedAfter(t, tenantID, list, m); }
  }

  /** ReplacePages either rolls back, exactly when an id repeats or the tenant is missing, or leaves
      that tenant with exactly the given pages and every other tenant's rows as they were. */
  lemma ReplacePagesExact(t: Tables, tenantID: string, list: seq<Page>)
    ensures ReplacePages(t, tenantID, list).Some? <==> (list == [] || tenantID in t.tenants) && DistinctPages(list)
    ensures ReplacePages(t, tenantID, list).Some? ==>
            Replaced(t, t.(pages := ReplacePages(t, tenantID, list).value), tenantID, list)
  {
    InsertPagesMeaning(t, PagesWithout(t.pages, tenantID), tenantID, list);
    if ReplacePages(t, tenantID, list).Some? {
      HeldIsReplaced(t, tenantID, list, ReplacePages(t, tenantID, list).value);
    }
  }

  lemma DeleteKeepsSound(t: Tables, id: string)
    requires Sound(t)
    ensures Sound(DeleteTenant(t, id))
  {}

  // ----- what the statements write, row by row -----

  /** User and columns of `row` are stored under `at`, with the creation second of the row that was there, and no
      other row is touched. */
  ghost predicate SavedAt(tenants: map<string, TenantRow>, after: map<string, TenantRow>, at: string, row: TenantRow) {
    && at in after
    && after[at].metaUserID == row.metaUserID && after[at].displayName == row.displayName
    && after[at].userToken == row.userToken && after[at].updatedAt == row.updatedAt
    && after[at].expiresAt == row.expiresAt
    && after[at].createdAt == (if at in tenants then tenants[at].createdAt else row.createdAt)
    && forall i :: i != at ==> (i in after <==> i in tenants) && (i in tenants ==> after[i] == tenants[i])
  }

  /** The upsert fails exactly when the id belongs to another user. Otherwise it saves the row where the user was
      stored, and under the given id only when the user was not. */
  lemma UpsertExact(tenants: map<string, TenantRow>, id: string, row: TenantRow) returns (at: string)
    requires UniqueUsers(tenants)
    ensures UpsertTenant(tenants, id, row).None? <==> id in tenants && tenants[id].metaUserID != row.metaUserID
    ensures UpsertTenant(tenants, id, row).Some? ==> SavedAt(tenants, UpsertTenant(tenants, id, row).value, at, row)
    ensures (at in tenants && tenants[at].metaUserID == row.metaUserID)
            || (at == id && forall i :: i in tenants ==> tenants[i].metaUserID != row.metaUserID)
  {
    at := if TenantOf(tenants, row.metaUserID).Some? then TenantOf(tenants, row.metaUserID).value else id;
  }

  /** A known deadline is due from a full second before the window reaches it, an unknown one a full second and the
      recheck interval after the last update. */
  lemma DueExact(row: TenantRow, until: Time, since: Time)
    ensures Due(row, Unix(until), Unix(since)) <==>
            || (row.expiresAt > 0 && Instant(row.expiresAt) + SECOND <= until)
            || (row.expiresAt == 0 && Instant(row.updatedAt) + SECOND <= since)
  {}

  /** Everything of this tenant is gone, and every row of anybody else is there as it was. */
  ghost predicate OnlyGone(t: Tables, after: Tables, id: string) {
    && after.clients == t.clients && after.logins == t.logins
    && (forall i :: (i in after.tenants <==> i in t.tenants && i != id)
                    && (i in after.tenants ==> after.tenants[i] == t.tenants[i]))
    && (forall k :: (k in after.pages <==> k in t.pages && k.tenantID != id)
                    && (k in after.pages ==> after.pages[k] == t.pages[k]))
    && (forall c :: (c in after.codes <==> c in t.codes && t.codes[c].tenantID != id)
                    && (c in after.codes ==> after.codes[c] == t.codes[c]))
    && (forall h :: (h in after.refresh <==> h in t.refresh && t.refresh[h].tenantID != id)
                    && (h in after.refresh ==> after.refresh[h] == t.refresh[h]))
  }

  lemma DeleteExact(t: Tables, id: string)
    ensures OnlyGone(t, DeleteTenant(t, id), id)
  {}

  /** Of codes, login states and refresh tokens exactly those stay whose deadline is ahead of the clock; nothing else
      changes. */
  ghost predicate OnlyExpired(t: Tables, after: Tables, now: Time) {
    && after.tenants == t.tenants && after.pages == t.pages && after.clients == t.clients
    && (forall c :: (c in after.codes <==> c in t.codes && now < Instant(t.codes[c].expiresAt))
                    && (c in after.codes ==> after.codes[c] == t.codes[c]))
    && (forall x :: (x in after.logins <==> x in t.logins && now < Instant(t.logins[x].expiresAt))
                    && (x in after.logins ==> after.logins[x] == t.logins[x]))
    && (forall h :: (h in after.refresh <==> h in t.refresh && now < Instant(t.refresh[h].expiresAt))
                    && (h in after.refresh ==> after.refresh[h] == t.refresh[h]))
  }

  lemma PurgeExact(t: Tables, now: Time)
    ensures OnlyExpired(t, PurgeRefresh(PurgeLogins(PurgeCodes(t, now), now), now), now)
  {
    forall sec ensures now < Instant(sec) <==> Unix(now) < sec { FloorAgrees(now, sec); }
  }
}
