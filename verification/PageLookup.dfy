/** Which stored page a tool call works on, and with which token. */
module PageLookup {
  import opened Domain
  import opened Storage
  import opened Database
  import opened Text

  datatype Refusal = EmptyID | UnknownPage | NoInstagram | MissingObject | NoPages | AmbiguousPage | AmbiguousInstagram

  /** The page found, whose row holds the token every Graph call of the tool then uses. */
  datatype Resolved = Found(pageID: string, row: PageRow) | Refused(why: Refusal)

  datatype Query =
    | PageQuery(pageID: string)
    | InstagramQuery(pageID: string)
    | OwnerQuery(hint: string, objectID: string)
    | OwnerInstagramQuery(hint: string, objectID: string)

  /** What precedes the first underscore of a Graph object id, if there is one. */
  function PagePrefix(objectID: string): Option<string> {
    if objectID == "" then None
    else if objectID[0] == '_' then Some("")
    else
      match PagePrefix(objectID[1..])
      case None => None
      case Some(rest) => Some([objectID[0]] + rest)
  }

  function ResolvePage(view: map<string, PageRow>, pageID: string): Resolved {
    if Blank(pageID) then Refused(EmptyID)
    else if pageID in view then Found(pageID, view[pageID])
    else Refused(UnknownPage)
  }

  function ResolveInstagram(view: map<string, PageRow>, pageID: string): Resolved {
    var page := ResolvePage(view, pageID);
    if page.Found? && page.row.igUserID == "" then Refused(NoInstagram) else page
  }

  function WithInstagram(view: map<string, PageRow>): map<string, PageRow> {
    map p | p in view && view[p].igUserID != "" :: view[p]
  }

  /** The page of a view that holds only one. */
  ghost function Only(view: map<string, PageRow>): Resolved
    requires |view| == 1
  {
    var p :| p in view;
    Found(p, view[p])
  }

  ghost function Resolve(view: map<string, PageRow>, q: Query): Resolved {
    match q
    case PageQuery(pageID) => ResolvePage(view, pageID)
    case InstagramQuery(pageID) => ResolveInstagram(view, pageID)
    case OwnerQuery(hint, objectID) =>
      if Blank(objectID) then Refused(MissingObject)
      else if hint != "" then ResolvePage(view, hint)
      else
        var prefix := PagePrefix(objectID);
        if prefix.Some? && prefix.value != "" && prefix.value in view then Found(prefix.value, view[prefix.value])
        else if |view| == 1 then Only(view)
        else if |view| == 0 then Refused(NoPages)
        else Refused(AmbiguousPage)
    case OwnerInstagramQuery(hint, objectID) =>
      if hint != "" then ResolveInstagram(view, hint)
      else
        var linked := WithInstagram(view);
        if |linked| == 0 then Refused(NoInstagram)
        else if |linked| == 1 then Only(linked)
        else Refused(AmbiguousInstagram)
  }

  /** A page another tenant owns is answered exactly like one nobody owns. */
  lemma ForeignPageIsUnknown(t: Tables, tenantID: string, pageID: string, q: Query)
    requires PageKey(tenantID, pageID) !in t.pages && !Blank(pageID)
    requires q == PageQuery(pageID) || q == InstagramQuery(pageID)
          || (q.OwnerQuery? && q.hint == pageID && !Blank(q.objectID)) || (q.OwnerInstagramQuery? && q.hint == pageID)
    ensures Resolve(PagesOf(t, tenantID), q) == Refused(UnknownPage)
  {}

  /** The prefix is cut at the first underscore. */
  lemma {:induction false} PagePrefixMeaning(objectID: string, prefix: string)
    ensures PagePrefix(objectID) == Some(prefix) <==>
            '_' !in prefix && |prefix| < |objectID| && objectID[..|prefix|] == prefix && objectID[|prefix|] == '_'
  {
    if objectID != "" && objectID[0] != '_' {
      if prefix != "" {
        PagePrefixMeaning(objectID[1..], prefix[1..]);
        assert prefix == [prefix[0]] + prefix[1..];
        if |prefix| < |objectID| {
          assert objectID[..|prefix|] == [objectID[0]] + objectID[1..][..|prefix| - 1];
        }
        if PagePrefix(objectID[1..]).Some? {
          PagePrefixMeaning(objectID[1..], PagePrefix(objectID[1..]).value);
        }
      } else if PagePrefix(objectID[1..]).Some? {
        assert PagePrefix(objectID).value != "";
      }
    }
  }

  // ----- which page a tool call gets -----

  /** The object id names this page: the page id, an underscore, and the rest. */
  predicate NamesPage(objectID: string, p: string) {
    p != "" && '_' !in p && |p| < |objectID| && objectID[..|p|] == p && objectID[|p|] == '_'
  }

  lemma NamedPrefix(objectID: string, p: string)
    ensures PagePrefix(objectID) == Some(p) && p != "" <==> NamesPage(objectID, p)
  {
    PagePrefixMeaning(objectID, p);
  }

  lemma OnlyRow(view: map<string, PageRow>)
    ensures |view| == 1 <==> exists p :: view.Keys == {p}
    ensures |view| == 1 ==>
              && Only(view).Found? && view.Keys == {Only(view).pageID}
              && Only(view).row == view[Only(view).pageID]
  {
    if |view| == 1 {
      var p :| p in view;
      assert |view.Keys - {p}| == 0;
      assert view.Keys == {p};
    }
    if p :| view.Keys == {p} {
      assert |view.Keys| == 1;
    }
  }

  /** A tool call on an object gets the stored page the caller named; without a hint the stored page the object id
      names; without that the tenant's only page; and otherwise none. */
  lemma OwnerExact(view: map<string, PageRow>, hint: string, objectID: string, p: string, row: PageRow)
    ensures Resolve(view, OwnerQuery(hint, objectID)) == Found(p, row) <==>
            && p in view && row == view[p] && !(forall c <- objectID :: IsSpace(c))
            && if hint != "" then p == hint && !(forall c <- hint :: IsSpace(c))
               else NamesPage(objectID, p) || view.Keys == {p}
  {
    BlankMeaning(objectID);
    BlankMeaning(hint);
    OnlyRow(view);
    NamedPrefix(objectID, p);
    if PagePrefix(objectID).Some? { NamedPrefix(objectID, PagePrefix(objectID).value); }
  }

  /** The refusals tell why: nothing connected, or too much of it and no page named. */
  lemma OwnerRefusals(view: map<string, PageRow>, objectID: string)
    requires exists c <- objectID :: !IsSpace(c)
    ensures var r := Resolve(view, OwnerQuery("", objectID));
            && (r == Refused(NoPages) <==> view == map[])
            && (r == Refused(AmbiguousPage) <==>
                (exists p, q :: p in view && q in view && p != q) && forall p :: p in view ==> !NamesPage(objectID, p))
            && (r.Refused? ==> r.why == NoPages || r.why == AmbiguousPage)
  {
    BlankMeaning(objectID);
    OnlyRow(view);
    TwoRows(view);
    forall p ensures PagePrefix(objectID) == Some(p) && p != "" <==> NamesPage(objectID, p) {
      NamedPrefix(objectID, p);
    }
  }

  lemma TwoRows(view: map<string, PageRow>)
    ensures |view| > 1 <==> exists p, q :: p in view && q in view && p != q
  {
    if |view| > 1 {
      var p :| p in view;
      assert |view.Keys - {p}| == |view.Keys| - 1;
      var q :| q in view.Keys - {p};
    }
    if p, q :| p in view && q in view && p != q {
      assert {p, q} <= view.Keys && |view.Keys - {p, q}| == |view.Keys| - 2;
    }
  }

  /** The same for Instagram objects, whose ids name no page: the page of the hint if it has an account, or the only
      one that has. */
  lemma OwnerInstagramExact(view: map<string, PageRow>, hint: string, objectID: string, p: string, row: PageRow)
    ensures Resolve(view, OwnerInstagramQuery(hint, objectID)) == Found(p, row) <==>
            && p in view && row == view[p] && row.igUserID != ""
            && if hint != "" then p == hint && !(forall c <- hint :: IsSpace(c))
               else forall q :: q in view && view[q].igUserID != "" ==> q == p
  {
    BlankMeaning(hint);
    var linked := WithInstagram(view);
    OnlyRow(linked);
    if p in linked && forall q :: q in linked ==> q == p { assert linked.Keys == {p}; }
    if linked.Keys == {p} { forall q | q in view && view[q].igUserID != "" ensures q == p { assert q in linked; } }
  }

  /** A page asked for by its id: the stored one, and for Instagram only when it is linked. */
  lemma PageExact(view: map<string, PageRow>, pageID: string, p: string, row: PageRow)
    ensures Resolve(view, PageQuery(pageID)) == Found(p, row) <==>
            p == pageID && p in view && row == view[p] && !(forall c <- pageID :: IsSpace(c))
    ensures Resolve(view, InstagramQuery(pageID)) == Found(p, row) <==>
            Resolve(view, PageQuery(pageID)) == Found(p, row) && row.igUserID != ""
  {
    BlankMeaning(pageID);
  }

  /** These rows, each once. */
  ghost predicate Enumerates(list: seq<(string, PageRow)>, view: map<string, PageRow>) {
    && (forall i :: 0 <= i < |list| ==> list[i].0 in view && view[list[i].0] == list[i].1)
    && (forall i, j :: 0 <= i < j < |list| ==> list[i].0 != list[j].0)
    && |list| == |view|
  }

  /** Earlier names first. */
  predicate ByName(list: seq<(string, PageRow)>) {
    forall i, j :: 0 <= i < j < |list| ==> LexLe(list[i].1.name, list[j].1.name)
  }

  /** The rows of `all` that have left `view`, in order, none named after one that is still there. */
  ghost predicate Listed(list: seq<(string, PageRow)>, view: map<string, PageRow>, all: map<string, PageRow>) {
    && (forall i :: 0 <= i < |list| ==> list[i].0 in all && list[i].0 !in view && all[list[i].0] == list[i].1)
    && (forall i, j :: 0 <= i < j < |list| ==> list[i].0 != list[j].0)
    && |list| + |view| == |all|
    && ByName(list)
    && (forall i, q :: 0 <= i < |list| && q in view ==> LexLe(list[i].1.name, view[q].name))
  }

  lemma ListOneMore(list: seq<(string, PageRow)>, view: map<string, PageRow>, all: map<string, PageRow>, p: string)
    requires Listed(list, view, all) && p in view && p in all && all[p] == view[p]
    requires forall q :: q in view ==> LexLe(view[p].name, view[q].name)
    ensures Listed(list + [(p, view[p])], view - {p}, all)
  {
  }

  lemma {:induction false} FirstNameExists(view: map<string, PageRow>, keys: set<string>)
    requires keys != {} && keys <= view.Keys
    ensures exists p :: p in keys && forall q :: q in keys ==> LexLe(view[p].name, view[q].name)
  {
    var x :| x in keys;
    LexTotal(view[x].name, view[x].name);
    if keys != {x} {
      FirstNameExists(view, keys - {x});
      var y :| y in keys - {x} && forall q :: q in keys - {x} ==> LexLe(view[y].name, view[q].name);
      LexTotal(view[x].name, view[y].name);
      var p := if LexLe(view[x].name, view[y].name) then x else y;
      forall q | q in keys ensures LexLe(view[p].name, view[q].name) {
        if q != x { LexTransitive(view[p].name, view[y].name, view[q].name); }
      }
      assert p in keys;
    }
  }

  class PageService {
    const store: Store

    constructor (store: Store)
      ensures this.store == store
    {
      this.store := store;
    }

    /** SELECT ... WHERE tenant_id = ? ORDER BY name. */
    method ListPages(tenantID: string) returns (list: seq<(string, PageRow)>)
      ensures Enumerates(list, PagesOf(store.Snapshot(), tenantID)) && ByName(list)
    {
      list := RowsOf(map k | k in store.pages && k.tenantID == tenantID :: k.pageID := store.pages[k]);
    }

    /** Repeatedly takes a row with the first name. */
    method RowsOf(all: map<string, PageRow>) returns (list: seq<(string, PageRow)>)
      ensures Enumerates(list, all) && ByName(list)
    {
      list := [];
      var view := all;
      while view != map[]
        invariant view.Keys <= all.Keys && (forall p :: p in view ==> view[p] == all[p])
        invariant Listed(list, view, all)
        decreases |view|
      {
        FirstNameExists(view, view.Keys);
        var p :| p in view && forall q :: q in view ==> LexLe(view[p].name, view[q].name);
        ListOneMore(list, view, all, p);
        list := list + [(p, view[p])];
        view := view - {p};
      }
    }

    method Page(tenantID: string, pageID: string) returns (r: Resolved)
      ensures r == Resolve(PagesOf(store.Snapshot(), tenantID), PageQuery(pageID))
    {
      if Blank(pageID) {
        return Refused(EmptyID);
      }
      var page := store.PageByID(tenantID, pageID);
      return if page.None? then Refused(UnknownPage) else Found(pageID, page.value);
    }

    method InstagramPage(tenantID: string, pageID: string) returns (r: Resolved)
      ensures r == Resolve(PagesOf(store.Snapshot(), tenantID), InstagramQuery(pageID))
    {
      r := Page(tenantID, pageID);
      if r.Found? && r.row.igUserID == "" {
        r := Refused(NoInstagram);
      }
    }

    method OwnerPage(tenantID: string, hint: string, objectID: string) returns (r: Resolved)
      ensures r == Resolve(PagesOf(store.Snapshot(), tenantID), OwnerQuery(hint, objectID))
    {
      if Blank(objectID) {
        return Refused(MissingObject);
      }
      if hint != "" {
        r := Page(tenantID, hint);
        return;
      }
      var prefix := PagePrefix(objectID);
      if prefix.Some? && prefix.value != "" {
        var page := store.PageByID(tenantID, prefix.value);
        if page.Some? {
          return Found(prefix.value, page.value);
        }
      }
      var list := ListPages(tenantID);
      if |list| == 1 {
        OnlyIs(PagesOf(store.Snapshot(), tenantID), list[0].0);
        return Found(list[0].0, list[0].1);
      }
      return Refused(if |list| == 0 then NoPages else AmbiguousPage);
    }

    method OwnerInstagramPage(tenantID: string, hint: string, objectID: string) returns (r: Resolved)
      ensures r == Resolve(PagesOf(store.Snapshot(), tenantID), OwnerInstagramQuery(hint, objectID))
    {
      if hint != "" {
        r := InstagramPage(tenantID, hint);
        return;
      }
      var pages := ListPages(tenantID);
      ghost var view := PagesOf(store.Snapshot(), tenantID);
      var withIG: seq<(string, PageRow)> := [];
      for i := 0 to |pages|
        invariant withIG == LinkedOf(pages[..i])
      {
        assert pages[..i + 1][..i] == pages[..i];
        if pages[i].1.igUserID != "" {
          withIG := withIG + [pages[i]];
        }
      }
      assert pages[..|pages|] == pages;
      LinkedEnumerates(pages, view);
      if |withIG| == 0 {
        return Refused(NoInstagram);
      }
      if |withIG| == 1 {
        OnlyIs(WithInstagram(view), withIG[0].0);
        return Found(withIG[0].0, withIG[0].1);
      }
      return Refused(AmbiguousInstagram);
    }
  }

  lemma OnlyIs(view: map<string, PageRow>, p: string)
    requires |view| == 1 && p in view
    ensures Only(view) == Found(p, view[p])
  {
    assert |view.Keys - {p}| == 0;
    assert forall q :: q in view ==> q == p || q in view.Keys - {p};
  }

  /** The listed pages with an Instagram account, in order. */
  function LinkedOf(list: seq<(string, PageRow)>): seq<(string, PageRow)> {
    if list == [] then []
    else LinkedOf(list[..|list| - 1]) + (if list[|list| - 1].1.igUserID != "" then [list[|list| - 1]] else [])
  }

  lemma EnumeratesFront(list: seq<(string, PageRow)>, view: map<string, PageRow>)
    requires Enumerates(list, view) && list != []
    ensures var last := list[|list| - 1];
            && last.0 in view && view[last.0] == last.1
            && Enumerates(list[..|list| - 1], view - {last.0})
  {
  }

  lemma EnumeratesPush(list: seq<(string, PageRow)>, view: map<string, PageRow>, last: (string, PageRow))
    requires Enumerates(list, view) && last.0 !in view
    ensures Enumerates(list + [last], view[last.0 := last.1])
  {
  }

  lemma InstagramRest(view: map<string, PageRow>, p: string)
    requires p in view
    ensures p !in WithInstagram(view - {p})
    ensures WithInstagram(view) ==
            if view[p].igUserID != "" then WithInstagram(view - {p})[p := view[p]] else WithInstagram(view - {p})
  {
  }

  lemma {:induction false} LinkedEnumerates(list: seq<(string, PageRow)>, view: map<string, PageRow>)
    requires Enumerates(list, view)
    ensures Enumerates(LinkedOf(list), WithInstagram(view))
    decreases |list|
  {
    if list == [] {
      assert view == map[];
    } else {
      var init, last := list[..|list| - 1], list[|list| - 1];
      var rest := view - {last.0};
      EnumeratesFront(list, view);
      LinkedEnumerates(init, rest);
      InstagramRest(view, last.0);
      if last.1.igUserID != "" {
        EnumeratesPush(LinkedOf(init), WithInstagram(rest), last);
      }
    }
  }
}
