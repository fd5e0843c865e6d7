/** The store as the handlers call it: one object, one statement or transaction per method. */
module Database {
  import opened Domain
  import opened Storage

  function DueIDs(tenants: map<string, TenantRow>, expiringBefore: int, uncheckedBefore: int): set<string> {
    set id | id in tenants && Due(tenants[id], expiringBefore, uncheckedBefore)
  }

  /** The rows of exactly these ids, each once, earliest deadline first. */
  ghost predicate Lists(tenants: map<string, TenantRow>, due: seq<(string, TenantRow)>, ids: set<string>) {
    && (forall i :: 0 <= i < |due| ==> due[i].0 in ids && due[i].0 in tenants && tenants[due[i].0] == due[i].1)
    && (forall id :: id in ids ==> exists i :: 0 <= i < |due| && due[i].0 == id)
    && (forall i, j :: 0 <= i < j < |due| ==> due[i].0 != due[j].0 && due[i].1.expiresAt <= due[j].1.expiresAt)
  }

  /** The rows of exactly these ids, each once, in any order. */
  ghost predicate Covers(tenants: map<string, TenantRow>, list: seq<(string, TenantRow)>, ids: set<string>) {
    && (forall i :: 0 <= i < |list| ==> list[i].0 in ids && list[i].0 in tenants && tenants[list[i].0] == list[i].1)
    && (forall id :: id in ids ==> exists i :: 0 <= i < |list| && list[i].0 == id)
    && (forall i, j :: 0 <= i < j < |list| ==> list[i].0 != list[j].0)
  }

  class Store {
    var tenants: map<string, TenantRow>
    var pages: map<PageKey, PageRow>
    var clients: map<string, ClientRow>
    var codes: map<string, CodeRow>
    var refreshTokens: map<string, RefreshRow>
    var loginStates: map<string, LoginRow>

    ghost function Snapshot(): Tables
      reads this
    {
      Tables(tenants, pages, clients, codes, refreshTokens, loginStates)
    }

    ghost predicate Valid()
      reads this
    {
      Sound(Snapshot())
    }

    constructor ()
      ensures Valid() && Snapshot() == Tables(map[], map[], map[], map[], map[], map[])
    {
      tenants, pages, clients, codes, refreshTokens, loginStates := map[], map[], map[], map[], map[], map[];
    }

    // ----- tenants -----

    /** The one row of this user, with its id. */
    method TenantByMetaUserID(metaUserID: string) returns (r: Option<(string, TenantRow)>)
      requires Valid()
      ensures r.Some? ==> TenantOf(tenants, metaUserID) == Some(r.value.0) && tenants[r.value.0] == r.value.1
      ensures r.None? ==> TenantOf(tenants, metaUserID) == None
    {
      r := None;
      if id :| id in tenants && tenants[id].metaUserID == metaUserID {
        r := Some((id, tenants[id]));
        TenantOfUnique(tenants, id);
      }
    }

    method UpsertTenant(id: string, row: TenantRow) returns (ok: bool)
      requires Valid()
      modifies this`tenants
      ensures Valid()
      ensures ok == Storage.UpsertTenant(old(tenants), id, row).Some?
      ensures tenants == if ok then Storage.UpsertTenant(old(tenants), id, row).value else old(tenants)
      ensures ok ==> exists at :: SavedAt(old(tenants), tenants, at, row)
    {
      if id in tenants && tenants[id].metaUserID != row.metaUserID {
        return false;
      }
      ghost var t := Snapshot();
      UpsertKeeps(t, id, row);
      ghost var at := UpsertExact(t.tenants, id, row);
      var stored := TenantByMetaUserID(row.metaUserID);
      match stored {
        case Some(conflict) => tenants := tenants[conflict.0 := row.(createdAt := conflict.1.createdAt)];
        case None => tenants := tenants[id := row];
      }
      return true;
    }

    static lemma UpsertKeeps(t: Tables, id: string, row: TenantRow)
      requires Sound(t) && Storage.UpsertTenant(t.tenants, id, row).Some?
      ensures Sound(t.(tenants := Storage.UpsertTenant(t.tenants, id, row).value))
    {
      UpsertKeepsIdentity(t.tenants, id, row);
    }

    /** ORDER BY user_token_expires_at: repeatedly takes a due row with the earliest deadline. */
    method TenantsDueForTokenRefresh(expiringBefore: Time, uncheckedBefore: Time)
        returns (due: seq<(string, TenantRow)>)
      ensures Lists(tenants, due, DueIDs(tenants, Unix(expiringBefore), Unix(uncheckedBefore)))
    {
      due := [];
      var all := DueIDs(tenants, Unix(expiringBefore), Unix(uncheckedBefore));
      var left := all;
      while left != {}
        invariant left <= all
        invariant Lists(tenants, due, all - left)
        invariant forall i, id :: 0 <= i < |due| && id in left ==> due[i].1.expiresAt <= tenants[id].expiresAt
        decreases left
      {
        EarliestExists(tenants, left);
        var next :| next in left && forall id :: id in left ==> tenants[next].expiresAt <= tenants[id].expiresAt;
        ListsAppend(tenants, due, all - left, next);
        assert all - left + {next} == all - (left - {next});
        due := due + [(next, tenants[next])];
        left := left - {next};
      }
      assert all - left == all;
    }

    static lemma ListsAppend(tenants: map<string, TenantRow>, due: seq<(string, TenantRow)>, ids: set<string>,
        next: string)
      requires Lists(tenants, due, ids) && next !in ids && next in tenants
      requires forall i :: 0 <= i < |due| ==> due[i].1.expiresAt <= tenants[next].expiresAt
      ensures Lists(tenants, due + [(next, tenants[next])], ids + {next})
    {
      var after := due + [(next, tenants[next])];
      forall id | id in ids + {next} ensures exists i :: 0 <= i < |after| && after[i].0 == id {
        if id == next {
          assert after[|due|].0 == id;
        } else {
          var i :| 0 <= i < |due| && due[i].0 == id;
          assert after[i].0 == id;
        }
      }
    }

    static lemma {:induction false} EarliestExists(tenants: map<string, TenantRow>, ids: set<string>)
      requires ids != {} && ids <= tenants.Keys
      ensures exists next :: next in ids && forall id :: id in ids ==> tenants[next].expiresAt <= tenants[id].expiresAt
    {
      var x :| x in ids;
      if ids == {x} {
      } else {
        EarliestExists(tenants, ids - {x});
        var y :| y in ids - {x} && forall id :: id in ids - {x} ==> tenants[y].expiresAt <= tenants[id].expiresAt;
        var next := if tenants[x].expiresAt <= tenants[y].expiresAt then x else y;
        assert forall id :: id in ids ==> id == x || id in ids - {x};
        assert next in ids && forall id :: id in ids ==> tenants[next].expiresAt <= tenants[id].expiresAt;
      }
    }

    method DeleteTenant(id: string)
      requires Valid()
      modifies this
      ensures Valid() && Snapshot() == Storage.DeleteTenant(old(Snapshot()), id)
      ensures OnlyGone(old(Snapshot()), Snapshot(), id)
    {
      ghost var before := Snapshot();
      DeleteExact(before, id);
      DeleteKeepsSound(before, id);
      refreshTokens := RefreshWithout(refreshTokens, id);
      codes := CodesWithout(codes, id);
      pages := PagesWithout(pages, id);
      tenants := tenants - {id};
    }

    // ----- pages -----

    /** Rolls back, leaving every row, as soon as one insert is refused. */
    method ReplacePages(tenantID: string, list: seq<Page>) returns (ok: bool)
      requires Valid()
      modifies this`pages
      ensures Valid()
      ensures ok == Storage.ReplacePages(old(Snapshot()), tenantID, list).Some?
      ensures pages == if ok then Storage.ReplacePages(old(Snapshot()), tenantID, list).value else old(pages)
    {
      ghost var t := Snapshot();
      var base := PagesWithout(pages, tenantID);
      var rows := base;
      for i := 0 to |list|
        invariant InsertPages(t, base, tenantID, list[..i]) == Some(rows)
      {
        var key := PageKey(tenantID, list[i].pageID);
        assert list[..i + 1][..i] == list[..i];
        if tenantID !in tenants || key in rows {
          InsertStopsAt(t, base, tenantID, list, i);
          return false;
        }
        rows := rows[key := RowOf(list[i])];
      }
      assert list[..|list|] == list;
      ReplacePagesExact(t, tenantID, list);
      pages := rows;
      return true;
    }

    static lemma {:induction false} InsertStopsAt(t: Tables, base: map<PageKey, PageRow>, tenantID: string,
        list: seq<Page>, i: nat)
      requires i < |list| && InsertPages(t, base, tenantID, list[..i + 1]).None?
      ensures InsertPages(t, base, tenantID, list).None?
      decreases |list|
    {
      if i + 1 == |list| {
        assert list[..i + 1] == list;
      } else {
        assert list[..|list| - 1][..i + 1] == list[..i + 1];
        InsertStopsAt(t, base, tenantID, list[..|list| - 1], i);
      }
    }

    method PageByID(tenantID: string, pageID: string) returns (r: Option<PageRow>)
      ensures r == if pageID in PagesOf(Snapshot(), tenantID) then Some(PagesOf(Snapshot(), tenantID)[pageID]) else None
    {
      var key := PageKey(tenantID, pageID);
      r := if key in pages then Some(pages[key]) else None;
    }

    // ----- clients -----

    method RegisterClient(id: string, row: ClientRow) returns (ok: bool)
      modifies this`clients
      ensures ok == (id !in old(clients))
      ensures clients == if ok then old(clients)[id := row] else old(clients)
    {
      ok := id !in clients;
      if ok { clients := clients[id := row]; }
    }

    method ClientByID(id: string) returns (r: Option<ClientRow>)
      ensures r == if id in clients then Some(clients[id]) else None
    {
      r := if id in clients then Some(clients[id]) else None;
    }

    // ----- single-use credentials -----

    method CreateAuthCode(code: string, row: CodeRow) returns (ok: bool)
      modifies this`codes
      ensures ok == (code !in old(codes))
      ensures codes == if ok then old(codes)[code := row] else old(codes)
    {
      ok := code !in codes;
      if ok { codes := codes[code := row]; }
    }

    method ConsumeAuthCode(code: string) returns (r: Option<CodeRow>)
      modifies this`codes
      ensures (Snapshot(), r) == ConsumeCode(old(Snapshot()), code)
    {
      r := None;
      if code in codes {
        r := Some(codes[code]);
        codes := codes - {code};
      }
    }

    method CreateRefreshToken(hash: string, row: RefreshRow) returns (ok: bool)
      modifies this`refreshTokens
      ensures ok == (hash !in old(refreshTokens))
      ensures refreshTokens == if ok then old(refreshTokens)[hash := row] else old(refreshTokens)
    {
      ok := hash !in refreshTokens;
      if ok { refreshTokens := refreshTokens[hash := row]; }
    }

    method RotateRefreshToken(hash: string, now: Time) returns (r: Option<RefreshRow>)
      modifies this`refreshTokens
      ensures (Snapshot(), r) == RotateRefresh(old(Snapshot()), hash, now)
    {
      r := None;
      if hash in refreshTokens && !refreshTokens[hash].revoked && refreshTokens[hash].expiresAt > Unix(now) {
        r := Some(refreshTokens[hash].(revoked := true));
        refreshTokens := refreshTokens[hash := r.value];
      }
    }

    method CreateLoginState(state: string, row: LoginRow) returns (ok: bool)
      modifies this`loginStates
      ensures ok == (state !in old(loginStates))
      ensures loginStates == if ok then old(loginStates)[state := row] else old(loginStates)
    {
      ok := state !in loginStates;
      if ok { loginStates := loginStates[state := row]; }
    }

    method ConsumeLoginState(state: string) returns (r: Option<LoginRow>)
      modifies this`loginStates
      ensures (Snapshot(), r) == ConsumeLogin(old(Snapshot()), state)
    {
      r := None;
      if state in loginStates {
        r := Some(loginStates[state]);
        loginStates := loginStates - {state};
      }
    }

    // ----- housekeeping -----

    /** Three statements with one clock reading: codes, login states, refresh tokens. */
    method PurgeExpired(now: Time)
      modifies this`codes, this`loginStates, this`refreshTokens
      ensures Snapshot() == PurgeRefresh(PurgeLogins(PurgeCodes(old(Snapshot()), now), now), now)
    {
      codes := map c | c in codes && codes[c].expiresAt > Unix(now) :: codes[c];
      loginStates := map s | s in loginStates && loginStates[s].expiresAt > Unix(now) :: loginStates[s];
      refreshTokens := map h | h in refreshTokens && refreshTokens[h].expiresAt > Unix(now) :: refreshTokens[h];
    }
  }
}
