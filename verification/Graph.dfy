/** The Graph client against a Meta that may answer anything: one retry, bounded pagination. */
module Graph {
  import opened Domain

  const MAX_PAGES := 50

  datatype Method = GET | POST

  datatype Request = Request(verb: Method, url: string, params: map<string, string>)

  datatype GraphError = GraphError(httpStatus: int, code: int, retryAfter: Time)

  predicate IsRateLimit(e: GraphError) {
    e.code in {4, 17, 32, 613} || e.httpStatus == 429
  }

  /** The answer to one HTTP attempt. */
  datatype Reply = Body(text: string) | Refused(err: GraphError) | Broken

  datatype Failure =
    | GraphFailure(err: GraphError)
    | TransportFailure
    | Cancelled
    | Undecodable
    | MissingID
    | MediaRejected
    | MediaExpired
    | NotReady

  datatype Result<+T> = Ok(value: T) | Failed(why: Failure)

  /** What the client did and what it got, in order. */
  datatype Entry = Attempt(req: Request, reply: Reply) | Pause(delay: Time, elapsed: bool)

  type Log = seq<Entry>

  /** The logical calls of a client, one entry however often it was attempted, in order. */
  type Calls = seq<(Request, Result<string>)>

  datatype ListPage = ListPage(items: seq<string>, next: string)

  /** Everything outside the client. Its answers may depend on the whole past; a wait may be cancelled. */
  datatype World = World(
    http: (Log, Request) -> Reply,
    wait: (Log, Time) -> bool,
    decodePage: string -> Option<ListPage>,
    signs: bool,
    proof: string -> string,
    retryDelay: Time)

  /** url.Values: a parameter map that calls fill in place. */
  class Values {
    var entries: map<string, string>

    constructor (entries: map<string, string>)
      ensures this.entries == entries
    {
      this.entries := entries;
    }

    method Set(key: string, value: string)
      modifies this
      ensures entries == old(entries)[key := value]
    {
      entries := entries[key := value];
    }

    method Del(key: string)
      modifies this
      ensures entries == old(entries) - {key}
    {
      entries := entries - {key};
    }
  }

  function WithCredentials(w: World, params: map<string, string>, token: string): map<string, string> {
    if token == "" then params
    else
      var named := params["access_token" := token];
      if w.signs then named["appsecret_proof" := w.proof(token)] else named
  }

  /** The parameter is sent exactly under this condition, and then with this value. */
  predicate Carries(params: map<string, string>, key: string, sent: bool, value: string) {
    (key in params <==> sent) && (sent ==> params[key] == value)
  }

  // ----- one logical call -----

  function OutcomeOf(reply: Reply): Result<string> {
    match reply
    case Body(text) => Ok(text)
    case Refused(err) => Failed(GraphFailure(err))
    case Broken => Failed(TransportFailure)
  }

  function RetryDelay(w: World, e: GraphError): Time {
    if e.retryAfter > 0 then e.retryAfter else w.retryDelay
  }

  /** What one call adds to the log. */
  function CallEntries(w: World, log: Log, req: Request): Log {
    var first := Attempt(req, w.http(log, req));
    if !first.reply.Refused? || !IsRateLimit(first.reply.err) then
      [first]
    else
      var delay := RetryDelay(w, first.reply.err);
      var pause := Pause(delay, w.wait(log + [first], delay));
      if !pause.elapsed then [first, pause] else [first, pause, Attempt(req, w.http(log + [first, pause], req))]
  }

  function CallSpec(w: World, log: Log, req: Request): (Log, Result<string>) {
    var entries := CallEntries(w, log, req);
    var last := entries[|entries| - 1];
    (log + entries, if last.Pause? then Failed(Cancelled) else OutcomeOf(last.reply))
  }

  /** One attempt; or a rate-limit answer and a cancelled wait; or that, a full wait and one more attempt. */
  predicate SingleRetry(entries: Log, req: Request) {
    && 1 <= |entries| <= 3 && entries[0].Attempt? && entries[0].req == req
    && (|entries| > 1 ==> entries[0].reply.Refused? && IsRateLimit(entries[0].reply.err) && entries[1].Pause?)
    && (|entries| > 1 ==> (entries[1].elapsed <==> |entries| == 3))
    && (|entries| == 3 ==> entries[2].Attempt? && entries[2].req == req)
  }

  function Attempts(log: Log): nat {
    if log == [] then 0 else Attempts(log[..|log| - 1]) + (if log[|log| - 1].Attempt? then 1 else 0)
  }

  lemma {:induction false} AttemptsAppend(log: Log, more: Log)
    ensures Attempts(log + more) == Attempts(log) + Attempts(more)
    decreases |more|
  {
    if more == [] {
      assert log + more == log;
    } else {
      assert (log + more)[..|log + more| - 1] == log + more[..|more| - 1];
      AttemptsAppend(log, more[..|more| - 1]);
    }
  }

  /** A call repeats its request at most once, and only after a rate-limit answer it waited out. */
  lemma CallRetriesOnce(w: World, log: Log, req: Request)
    ensures SingleRetry(CallEntries(w, log, req), req)
    ensures 1 <= Attempts(CallEntries(w, log, req)) <= 2
    ensures Attempts(CallSpec(w, log, req).0) <= Attempts(log) + 2
  {
    var entries := CallEntries(w, log, req);
    AttemptsAppend(log, entries);
    assert Attempts(entries[..1]) == 1 by { assert entries[..1][..0] == []; }
    if |entries| > 1 {
      assert entries[..2][..1] == entries[..1];
      if |entries| == 3 { assert entries[..3] == entries && entries[..3][..2] == entries[..2]; }
          else { assert entries[..2] == entries; }
    } else {
      assert entries[..1] == entries;
    }
  }

  /** Meta asks for a pause: an application, user, page or business limit, or status 429. */
  predicate Throttled(r: Reply) {
    r.Refused? && (r.err.code == 4 || r.err.code == 17 || r.err.code == 32 || r.err.code == 613
                   || r.err.httpStatus == 429)
  }

  /** Every attempt is this request and its answer is Meta's at that point; every pause lasts what Meta named, or the
      default, and ended as it did. */
  ghost predicate Honest(w: World, log: Log, entries: Log, req: Request) {
    forall i :: 0 <= i < |entries| ==>
      match entries[i]
      case Attempt(r, reply) => r == req && reply == w.http(log + entries[..i], req)
      case Pause(delay, elapsed) =>
        && elapsed == w.wait(log + entries[..i], delay)
        && i == 1 && entries[0].Attempt? && entries[0].reply.Refused?
        && var named := entries[0].reply.err.retryAfter;
           delay == if named > 0 then named else w.retryDelay
  }

  /** The result of a call is the answer to its last attempt, or that its wait was cancelled. */
  predicate AnswersLast(last: Entry, result: Result<string>) {
    match last
    case Pause(_, elapsed) => !elapsed && result == Failed(Cancelled)
    case Attempt(_, Body(text)) => result == Ok(text)
    case Attempt(_, Refused(err)) => result == Failed(GraphFailure(err))
    case Attempt(_, Broken) => result == Failed(TransportFailure)
  }

  /** A call in what its caller and Meta see: it only appends to the log, truthfully; it goes on after its first
      attempt exactly when that is throttled, sends the request again exactly when the pause after it elapses, and
      answers with its last entry. */
  lemma CallMeaning(w: World, log: Log, req: Request)
    ensures var (log', result) := CallSpec(w, log, req);
            && |log| < |log'| <= |log| + 3 && log <= log'
            && var entries := log'[|log|..];
               && Honest(w, log, entries, req) && entries[0].Attempt?
               && (|entries| > 1 <==> Throttled(entries[0].reply))
               && (|entries| > 1 ==> entries[1].Pause? && (|entries| > 2 <==> entries[1].elapsed))
               && (|entries| > 2 ==> entries[2].Attempt?)
               && AnswersLast(entries[|entries| - 1], result)
  {
    var entries := CallEntries(w, log, req);
    assert (log + entries)[|log|..] == entries;
    assert log + entries[..0] == log;
    assert |entries| > 1 ==> log + entries[..1] == log + [entries[0]];
    assert |entries| > 2 ==> log + entries[..2] == log + [entries[0], entries[1]];
  }

  /** A token is sent with its proof when the application has a secret, no token without either; the other parameters
      are sent as they are. */
  lemma CredentialsMeaning(w: World, params: map<string, string>, token: string)
    ensures var sent := WithCredentials(w, params, token);
            && (token == "" ==> sent == params)
            && (token != "" ==> "access_token" in sent && sent["access_token"] == token)
            && (token != "" && w.signs ==> "appsecret_proof" in sent && sent["appsecret_proof"] == w.proof(token))
            && (token != "" && !w.signs ==> ("appsecret_proof" in sent <==> "appsecret_proof" in params))
            && forall k :: k != "access_token" && k != "appsecret_proof" ==>
                 (k in sent <==> k in params) && (k in params ==> sent[k] == params[k])
  {
  }

  class Client {
    const w: World
    const maxPages: nat
    var log: Log
    ghost var calls: Calls

    constructor (w: World)
      ensures this.w == w && maxPages == 50 && log == [] && calls == []
    {
      this.w := w;
      maxPages := MAX_PAGES;
      log := [];
      calls := [];
    }

    method CallOnce(verb: Method, url: string, token: string, params: Values) returns (r: Reply)
      modifies this`log, params
      ensures params.entries == WithCredentials(w, old(params.entries), token)
      ensures var req := Request(verb, url, params.entries);
              r == w.http(old(log), req) && log == old(log) + [Attempt(req, r)]
    {
      if token != "" {
        params.Set("access_token", token);
        if w.signs {
          params.Set("appsecret_proof", w.proof(token));
        }
      }
      var req := Request(verb, url, params.entries);
      r := w.http(log, req);
      log := log + [Attempt(req, r)];
    }

    method Call(verb: Method, url: string, token: string, params: Values) returns (r: Result<string>)
      modifies this, params
      ensures params.entries == WithCredentials(w, old(params.entries), token)
      ensures var req := Request(verb, url, params.entries);
              (log, r) == CallSpec(w, old(log), req) && calls == old(calls) + [(req, r)]
      ensures Attempts(log) <= Attempts(old(log)) + 2
    {
      ghost var before := log;
      var first := CallOnce(verb, url, token, params);
      ghost var req := Request(verb, url, params.entries);
      if !first.Refused? || !IsRateLimit(first.err) {
        r := OutcomeOf(first);
      } else {
        var delay := RetryDelay(w, first.err);
        var elapsed := Wait(delay);
        assert log == before + [Attempt(req, first), Pause(delay, elapsed)];
        if elapsed {
          assert WithCredentials(w, params.entries, token) == params.entries;
          var second := CallOnce(verb, url, token, params);
          assert log == before + [Attempt(req, first), Pause(delay, elapsed), Attempt(req, second)];
          r := OutcomeOf(second);
        } else {
          r := Failed(Cancelled);
        }
      }
      calls := calls + [(req, r)];
      CallRetriesOnce(w, before, req);
    }

    /** A pause the caller may cancel. */
    method Wait(delay: Time) returns (elapsed: bool)
      modifies this`log
      ensures elapsed == w.wait(old(log), delay) && log == old(log) + [Pause(delay, elapsed)]
    {
      elapsed := w.wait(log, delay);
      log := log + [Pause(delay, elapsed)];
    }

    method NextPage(page: ListPage) returns (r: Result<string>)
      modifies this
      ensures (log, r) == CallSpec(w, old(log), Follow(page)) && |calls| == |old(calls)| + 1
    {
      var none := new Values(map[]);
      r := Call(GET, page.next, "", none);
    }

    method FirstPage(url: string, token: string, params: Values) returns (r: Result<string>)
      modifies this, params
      ensures var req := Request(GET, url, WithCredentials(w, old(params.entries), token));
              (log, r) == CallSpec(w, old(log), req) && |calls| == |old(calls)| + 1
    {
      r := Call(GET, url, token, params);
    }

    /** Follows the cursor until the limit is reached, the cursor runs out, or MAX_PAGES is hit. */
    method Collect(url: string, token: string, params: Values, limit: nat)
        returns (r: Result<seq<string>>, ghost fetched: nat)
      modifies this, params
      ensures var req := Request(GET, url, WithCredentials(w, old(params.entries), token));
              Gathered(log, r, fetched) == CollectSpec(w, old(log), req, limit, maxPages, [])
      ensures |calls| == |old(calls)| + fetched
    {
      ghost var req := Request(GET, url, WithCredentials(w, params.entries, token));
      ghost var whole, before := CollectSpec(w, log, req, limit, maxPages, []), log;
      var body := FirstPage(url, token, params);
      if body.Failed? { return Failed(body.why), 1; }
      var items, page := [], 0;
      ghost var left := maxPages;
      while page < maxPages
        invariant 0 <= page <= maxPages && left == maxPages - page && |calls| == |old(calls)| + page + 1
        invariant body.Ok? && CallSpec(w, before, req) == (log, body)
        invariant whole == Later(page, CollectSpec(w, before, req, limit, left, items))
      {
        var resp := w.decodePage(body.value);
        if resp.None? { return Failed(Undecodable), page + 1; }
        ghost var had := items;
        items := items + resp.value.items;
        if limit > 0 && |items| >= limit { return Ok(items[..limit]), page + 1; }
        if resp.value.next == "" { return Ok(items), page + 1; }
        CollectGoesOn(w, before, req, limit, left, had, page, log, resp.value, items);
        req, before, left, page := Follow(resp.value), log, left - 1, page + 1;
        body := NextPage(resp.value);
        if body.Failed? { return Failed(body.why), page + 1; }
      }
      return Ok(items), page + 1;
    }
  }

  datatype Gathered = Gathered(log: Log, result: Result<seq<string>>, fetched: nat)

  /** The next page is one GET without parameters: the cursor carries them all. */
  function Follow(page: ListPage): Request { Request(GET, page.next, map[]) }

  /** What the loop does when `items` are in hand and `n` pages may still be read. */
  function CollectSpec(w: World, log: Log, req: Request, limit: nat, n: nat, items: seq<string>): Gathered
    decreases n
  {
    var (log', body) := CallSpec(w, log, req);
    if body.Failed? then Gathered(log', Failed(body.why), 1)
    else if n == 0 then Gathered(log', Ok(items), 1)
    else match w.decodePage(body.value)
      case None => Gathered(log', Failed(Undecodable), 1)
      case Some(page) =>
        var items' := items + page.items;
        if limit > 0 && |items'| >= limit then Gathered(log', Ok(items'[..limit]), 1)
        else if page.next == "" then Gathered(log', Ok(items'), 1)
        else
          var rest := CollectSpec(w, log', Follow(page), limit, n - 1, items');
          rest.(fetched := rest.fetched + 1)
  }

  function Later(fetched: nat, g: Gathered): Gathered { g.(fetched := fetched + g.fetched) }

  lemma CollectGoesOn(w: World, log: Log, req: Request, limit: nat, n: nat, items: seq<string>, fetched: nat,
      log': Log, page: ListPage, items': seq<string>)
    requires n > 0 && CallSpec(w, log, req).0 == log' && CallSpec(w, log, req).1.Ok?
    requires w.decodePage(CallSpec(w, log, req).1.value) == Some(page) && page.next != ""
    requires items' == items + page.items && (limit == 0 || |items'| < limit)
    ensures Later(fetched, CollectSpec(w, log, req, limit, n, items)) ==
            Later(fetched + 1, CollectSpec(w, log', Follow(page), limit, n - 1, items'))
  {
  }

  /** Concatenate, then take: with `items` in hand, success is the first `limit` of these and the listing's,
      reached exactly when they suffice or the walk ends without a failed call (the one for the page after the
      n-th included), after no page more than needed. */
  ghost predicate Collected(w: World, log: Log, req: Request, limit: nat, n: nat, items: seq<string>, g: Gathered) {
    var listing, last := Listing(w, log, req, n), LastCall(w, log, req, n);
    && (g.result.Ok? <==> Fills(items, listing, limit) || last.None? || last.value.Ok?)
    && (g.result.Ok? ==> g.result.value == FirstN(items + Concat(listing), limit))
    && (g.result.Failed? ==> last == Some(Failed(g.result.why)))
    && 1 <= g.fetched <= |listing| + 1 && !Fills(items, listing[..g.fetched - 1], limit)
  }

  lemma CollectNext(w: World, log: Log, req: Request, limit: nat, n: nat, items: seq<string>, page: ListPage,
      log': Log, g: Gathered)
    requires n > 0 && CallSpec(w, log, req).0 == log' && CallSpec(w, log, req).1.Ok?
    requires w.decodePage(CallSpec(w, log, req).1.value) == Some(page) && page.next != ""
    requires Collected(w, log', Follow(page), limit, n - 1, items + page.items, g)
    requires limit == 0 || |items + page.items| < limit
    ensures Collected(w, log, req, limit, n, items, g.(fetched := g.fetched + 1))
  {
    var listing, rest := Listing(w, log, req, n), Listing(w, log', Follow(page), n - 1);
    assert listing == [page] + rest && LastCall(w, log, req, n) == LastCall(w, log', Follow(page), n - 1);
    assert items + Concat(listing) == items + page.items + Concat(rest);
    assert listing[..g.fetched] == [page] + rest[..g.fetched - 1];
    assert Concat(listing[..g.fetched]) == page.items + Concat(rest[..g.fetched - 1]);
  }

  lemma CollectLast(w: World, log: Log, req: Request, limit: nat, n: nat, items: seq<string>, page: ListPage)
    requires n > 0 && CallSpec(w, log, req).1.Ok? && w.decodePage(CallSpec(w, log, req).1.value) == Some(page)
    requires page.next == "" || 0 < limit <= |items + page.items|
    requires limit == 0 || |items| < limit
    ensures Collected(w, log, req, limit, n, items, CollectSpec(w, log, req, limit, n, items))
  {
    var listing := Listing(w, log, req, n);
    assert listing == [page] + listing[1..] && listing[..0] == [];
    assert items + Concat(listing) == items + page.items + Concat(listing[1..]);
  }

  lemma {:induction false} CollectMeaning(w: World, log: Log, req: Request, limit: nat, n: nat, items: seq<string>)
    requires limit == 0 || |items| < limit
    ensures Collected(w, log, req, limit, n, items, CollectSpec(w, log, req, limit, n, items))
    decreases n
  {
    var (log', body) := CallSpec(w, log, req);
    if body.Failed? || n == 0 || w.decodePage(body.value).None? {
      assert Listing(w, log, req, n) == [];
    } else {
      var page := w.decodePage(body.value).value;
      if page.next != "" && (limit == 0 || |items + page.items| < limit) {
        CollectMeaning(w, log', Follow(page), limit, n - 1, items + page.items);
        CollectNext(w, log, req, limit, n, items, page, log',
            CollectSpec(w, log', Follow(page), limit, n - 1, items + page.items));
      } else {
        CollectLast(w, log, req, limit, n, items, page);
      }
    }
  }

  lemma TwoAttemptsAtMost(w: World, log: Log, req: Request)
    ensures Attempts(CallSpec(w, log, req).0) <= Attempts(log) + 2
  {
    CallRetriesOnce(w, log, req);
  }

  /** The first call, and whether another one follows it. */
  lemma CollectStep(w: World, log: Log, req: Request, limit: nat, n: nat, items: seq<string>)
      returns (goesOn: bool, page: ListPage)
    ensures var g, log' := CollectSpec(w, log, req, limit, n, items), CallSpec(w, log, req).0;
            && (!goesOn ==> g.fetched == 1 && g.log == log')
            && (goesOn ==> n > 0)
            && (goesOn ==>
                var rest := CollectSpec(w, log', Follow(page), limit, n - 1, items + page.items);
                g.fetched == rest.fetched + 1 && g.log == rest.log)
  {
    var body := CallSpec(w, log, req).1;
    goesOn, page := false, ListPage([], "");
    if body.Ok? && n > 0 && w.decodePage(body.value).Some? {
      page := w.decodePage(body.value).value;
      goesOn := page.next != "" && (limit == 0 || |items + page.items| < limit);
    }
  }

  /** At most n + 1 calls, and two HTTP attempts a call. */
  lemma {:induction false} CollectTerminates(w: World, log: Log, req: Request, limit: nat, n: nat, items: seq<string>)
    ensures var g := CollectSpec(w, log, req, limit, n, items);
            g.fetched <= n + 1 && Attempts(g.log) <= Attempts(log) + 2 * g.fetched
    decreases n
  {
    TwoAttemptsAtMost(w, log, req);
    var goesOn, page := CollectStep(w, log, req, limit, n, items);
    if goesOn {
      CollectTerminates(w, CallSpec(w, log, req).0, Follow(page), limit, n - 1, items + page.items);
    }
  }

  // ----- the listing a caller without a limit would read -----

  /** At most n linked pages; it ends early where Meta fails, answers nonsense, or has no next page. */
  function Listing(w: World, log: Log, req: Request, n: nat): (pages: seq<ListPage>)
    ensures |pages| <= n
    decreases n
  {
    if n == 0 then []
    else
      var (log', body) := CallSpec(w, log, req);
      if body.Failed? || w.decodePage(body.value).None? then []
      else
        var page := w.decodePage(body.value).value;
        [page] + (if page.next == "" then [] else Listing(w, log', Request(GET, page.next, map[]), n - 1))
  }

  /** How the walk over the listing ends: None when a page has no successor, otherwise the outcome of the
      first call that yields no page, or of the one after the n-th page. */
  function LastCall(w: World, log: Log, req: Request, n: nat): Option<Result<string>>
    decreases n
  {
    var (log', body) := CallSpec(w, log, req);
    if n == 0 || body.Failed? || w.decodePage(body.value).None? then
      Some(if n > 0 && body.Ok? then Failed(Undecodable) else body)
    else
      var page := w.decodePage(body.value).value;
      if page.next == "" then None else LastCall(w, log', Request(GET, page.next, map[]), n - 1)
  }

  function Concat(pages: seq<ListPage>): seq<string> {
    if pages == [] then [] else pages[0].items + Concat(pages[1..])
  }

  /** All items when the limit is 0. */
  function FirstN(items: seq<string>, limit: nat): seq<string> {
    if 0 < limit <= |items| then items[..limit] else items
  }

  /** These items and those of the pages reach the limit. */
  predicate Fills(items: seq<string>, pages: seq<ListPage>, limit: nat) {
    limit > 0 && |items| + |Concat(pages)| >= limit
  }
}
