/** Insight requests: one for the whole metric list, then one a metric when Meta refuses the list. */
module Insights {
  import opened Domain
  import opened Graph
  import opened Text

  const UNSUPPORTED := 100
  const FOLLOWER_COUNT := "follower_count"

  datatype Insight = Insight(metric: string, values: string)

  datatype InsightSet = InsightSet(insights: seq<Insight>, rejected: seq<string>)

  type Answer = Result<seq<Insight>>

  /** What every request of one batch shares. */
  datatype Query = Query(w: World, readItem: string -> Option<Insight>, token: string, path: string, base: map<string,
      string>)

  predicate Unsupported<T>(r: Result<T>) {
    r.Failed? && r.why.GraphFailure? && r.why.err.code == UNSUPPORTED
  }

  predicate Tolerable(r: Answer) { r.Ok? || Unsupported(r) }

  function MetricRequest(q: Query, metrics: seq<string>): Request {
    Request(GET, q.path, WithCredentials(q.w, q.base["metric" := Join(metrics, ",")], q.token))
  }

  /** Every item of a payload, or nothing when one of them cannot be read. */
  function ReadAll(readItem: string -> Option<Insight>, items: seq<string>): Option<seq<Insight>> {
    if items == [] then Some([])
    else
      var front := ReadAll(readItem, items[..|items| - 1]);
      var last := readItem(items[|items| - 1]);
      if front.Some? && last.Some? then Some(front.value + [last.value]) else None
  }

  function ReadBody(q: Query, body: Result<string>): Answer {
    if body.Failed? then Failed(body.why)
    else
      var page := q.w.decodePage(body.value);
      var read := if page.Some? then ReadAll(q.readItem, page.value.items) else None;
      if read.Some? then Ok(read.value) else Failed(Undecodable)
  }

  /** One request for these metrics, made when `log` has happened. */
  function Ask(q: Query, log: Log, metrics: seq<string>): (Log, Answer) {
    var (log', body) := CallSpec(q.w, log, MetricRequest(q, metrics));
    (log', ReadBody(q, body))
  }

  // ----- the reference: every metric on its own -----

  /** The answers to one request a metric, in order, each asked after the previous ones. */
  function Singles(q: Query, log: Log, metrics: seq<string>): (r: (Log, seq<Answer>))
    ensures |r.1| == |metrics|
  {
    if metrics == [] then (log, [])
    else
      var (before, answers) := Singles(q, log, metrics[..|metrics| - 1]);
      var (after, last) := Ask(q, before, [metrics[|metrics| - 1]]);
      (after, answers + [last])
  }

  function Served(answers: seq<Answer>): seq<Insight> {
    if answers == [] then []
    else
      var last := answers[|answers| - 1];
      Served(answers[..|answers| - 1]) + (if last.Ok? then last.value else [])
  }

  /** The metrics whose own answer was the unsupported-metric error, in order. */
  function Refusals(metrics: seq<string>, answers: seq<Answer>): seq<string>
    requires |metrics| == |answers|
  {
    if metrics == [] then []
    else
      var n := |metrics| - 1;
      Refusals(metrics[..n], answers[..n]) + (if Unsupported(answers[n]) then [metrics[n]] else [])
  }

  predicate AllTolerable(answers: seq<Answer>) {
    forall i :: 0 <= i < |answers| ==> Tolerable(answers[i])
  }

  /** Answer k is the first one that is neither insights nor the unsupported-metric error. */
  predicate FirstFatal(answers: seq<Answer>, k: int) {
    0 <= k < |answers| && (forall i :: 0 <= i < k ==> Tolerable(answers[i])) && !Tolerable(answers[k])
  }

  /** The metric-by-metric reading of a list: all of it, or the first real error. */
  ghost predicate OneByOne(q: Query, log: Log, metrics: seq<string>, r: Result<InsightSet>) {
    var answers := Singles(q, log, metrics).1;
    match r
    case Ok(got) => AllTolerable(answers) && got == InsightSet(Served(answers), Refusals(metrics, answers))
    case Failed(why) => exists k :: FirstFatal(answers, k) && answers[k].why == why
  }

  lemma {:induction false} SinglesPrefix(q: Query, log: Log, metrics: seq<string>, n: nat)
    requires n <= |metrics|
    ensures Singles(q, log, metrics[..n]).1 == Singles(q, log, metrics).1[..n]
    decreases |metrics|
  {
    var last := |metrics| - 1;
    if n == |metrics| {
      assert metrics[..n] == metrics;
    } else {
      assert metrics[..last][..n] == metrics[..n];
      SinglesPrefix(q, log, metrics[..last], n);
    }
  }

  /** The two outcomes of the metric-by-metric reading exclude each other, and one of them always applies. */
  lemma OneByOneIsUnique(q: Query, log: Log, metrics: seq<string>, r: Result<InsightSet>, s: Result<InsightSet>)
    requires OneByOne(q, log, metrics, r) && OneByOne(q, log, metrics, s)
    ensures r == s
  {
    var answers := Singles(q, log, metrics).1;
    if r.Failed? && s.Failed? {
      var j :| FirstFatal(answers, j) && answers[j].why == r.why;
      var k :| FirstFatal(answers, k) && answers[k].why == s.why;
      assert j == k;
    }
  }

  // ----- the batch, and its fallback -----

  /** How a reading ended: the log it left, its answer and the number of its requests. */
  datatype Reading = Reading(log: Log, result: Result<InsightSet>, sent: nat)

  ghost predicate Fallback(q: Query, log: Log, metrics: seq<string>, r: Reading) {
    if metrics == [] then
      r == Reading(log, Ok(InsightSet([], [])), 0)
    else
      var (log1, batch) := Ask(q, log, metrics);
      if !Unsupported(batch) then
        r == Reading(log1, if batch.Ok? then Ok(InsightSet(batch.value, [])) else Failed(batch.why), 1)
      else
        r.sent > 0 && Each(q, log1, metrics, r.log, r.result, r.sent - 1)
  }

  /** The metric-by-metric reading, stopped by the first real error: `asked` requests leave `log'` behind. */
  ghost predicate Each(q: Query, log: Log, metrics: seq<string>, log': Log, r: Result<InsightSet>, asked: nat) {
    && OneByOne(q, log, metrics, r)
    && asked <= |metrics| && log' == Singles(q, log, metrics[..asked]).0
    && if r.Ok? then asked == |metrics| else FirstFatal(Singles(q, log, metrics).1, asked - 1)
  }

  /** The loop of the fallback has read the first i metrics. */
  ghost predicate SoFar(q: Query, log1: Log, metrics: seq<string>, i: nat, log: Log, answers: seq<Answer>,
      got: InsightSet) {
    && i <= |metrics| && Singles(q, log1, metrics[..i]) == (log, answers) && AllTolerable(answers)
    && got == InsightSet(Served(answers), Refusals(metrics[..i], answers))
  }

  lemma OneMore(q: Query, log1: Log, metrics: seq<string>, i: nat, log: Log, answers: seq<Answer>, got: InsightSet,
      log': Log, one: Answer)
    requires SoFar(q, log1, metrics, i, log, answers, got) && i < |metrics|
    requires Ask(q, log, [metrics[i]]) == (log', one)
    ensures one.Ok? ==>
            SoFar(q, log1, metrics, i + 1, log', answers + [one], InsightSet(got.insights + one.value, got.rejected))
    ensures Unsupported(one) ==>
            SoFar(q, log1, metrics, i + 1, log', answers + [one], InsightSet(got.insights, got.rejected + [metrics[i]]))
    ensures !Tolerable(one) ==>
              var all := Singles(q, log1, metrics).1;
              FirstFatal(all, i) && all[i] == one && log' == Singles(q, log1, metrics[..i + 1]).0
  {
    var answers' := answers + [one];
    assert metrics[..i + 1][..i] == metrics[..i] && answers'[..i] == answers;
    assert Singles(q, log1, metrics[..i + 1]) == (log', answers');
    if !Tolerable(one) {
      SinglesPrefix(q, log1, metrics, i + 1);
      var all := Singles(q, log1, metrics).1;
      assert all[..i + 1] == answers';
      assert all[i] == answers'[i];
      forall k | 0 <= k < i ensures Tolerable(all[k]) { assert all[k] == answers'[k] == answers[k]; }
    }
  }

  /** The requests of a reading: the whole list, then the first metrics one at a time. */
  function RequestAt(q: Query, metrics: seq<string>, i: nat): Request
    requires i <= |metrics|
  {
    MetricRequest(q, if i == 0 then metrics else [metrics[i - 1]])
  }

  ghost predicate Sent(q: Query, metrics: seq<string>, before: Calls, after: Calls, sent: nat) {
    && sent <= 1 + |metrics| && |after| == |before| + sent && after[..|before|] == before
    && forall i :: 0 <= i < sent ==> after[|before| + i].0 == RequestAt(q, metrics, i)
  }

  lemma SentOneMore(q: Query, metrics: seq<string>, before: Calls, middle: Calls, after: Calls, sent: nat)
    requires Sent(q, metrics, before, middle, sent) && sent <= |metrics|
            && Sent1(RequestAt(q, metrics, sent), middle, after)
    ensures Sent(q, metrics, before, after, sent + 1)
  {
    assert after[..|before|] == middle[..|before|];
    forall i | 0 <= i < sent + 1 ensures after[|before| + i].0 == RequestAt(q, metrics, i) {
      if i < sent { assert after[|before| + i] == after[..|middle|][|before| + i]; }
    }
  }

  class InsightClient {
    const client: Client
    const readItem: string -> Option<Insight>

    constructor (client: Client, readItem: string -> Option<Insight>)
      ensures this.client == client && this.readItem == readItem
    {
      this.client := client;
      this.readItem := readItem;
    }

    function QueryOf(token: string, path: string, base: map<string, string>): Query {
      Query(client.w, readItem, token, path, base)
    }

    method CopyOf(base: Values) returns (params: Values)
      ensures fresh(params) && params.entries == base.entries
    {
      params := new Values(map[]);
      var left := base.entries.Keys;
      while left != {}
        invariant fresh(params) && left <= base.entries.Keys
        invariant params.entries == map k | k in base.entries && k !in left :: base.entries[k]
        decreases |left|
      {
        var k :| k in left;
        params.Set(k, base.entries[k]);
        left := left - {k};
      }
    }

    method DecodeInsights(items: seq<string>) returns (r: Option<seq<Insight>>)
      ensures r == ReadAll(readItem, items)
    {
      var out := [];
      for i := 0 to |items|
        invariant ReadAll(readItem, items[..i]) == Some(out)
      {
        assert items[..i + 1][..i] == items[..i];
        var item := readItem(items[i]);
        if item.None? {
          ReadAllStops(readItem, items, i);
          return None;
        }
        out := out + [item.value];
      }
      assert items[..|items|] == items;
      return Some(out);
    }

    method Insights(token: string, path: string, base: Values, metrics: seq<string>) returns (r: Answer)
      modifies client
      ensures base.entries == old(base.entries)
      ensures var q := QueryOf(token, path, base.entries);
              && (client.log, r) == Ask(q, old(client.log), metrics)
              && Sent1(MetricRequest(q, metrics), old(client.calls), client.calls)
    {
      var params := CopyOf(base);
      var names := JoinAll(metrics, ",");
      params.Set("metric", names);
      var body := client.Call(GET, path, token, params);
      if body.Failed? { return Failed(body.why); }
      var page := client.w.decodePage(body.value);
      if page.None? { return Failed(Undecodable); }
      var read := DecodeInsights(page.value.items);
      return if read.Some? then Ok(read.value) else Failed(Undecodable);
    }

    method InsightsWithFallback(token: string, path: string, base: Values, metrics: seq<string>)
      returns (r: Result<InsightSet>, ghost sent: nat)
      modifies client
      ensures base.entries == old(base.entries)
      ensures var q := QueryOf(token, path, base.entries);
              && Fallback(q, old(client.log), metrics, Reading(client.log, r, sent))
              && Sent(q, metrics, old(client.calls), client.calls, sent)
    {
      ghost var q := QueryOf(token, path, base.entries);
      if |metrics| == 0 {
        return Ok(InsightSet([], [])), 0;
      }
      var batch := Insights(token, path, base, metrics);
      if batch.Ok? {
        return Ok(InsightSet(batch.value, [])), 1;
      }
      if !Unsupported(batch) {
        return Failed(batch.why), 1;
      }
      ghost var asked;
      r, asked := EachMetric(token, path, base, metrics, old(client.calls));
      sent := 1 + asked;
    }

    method EachMetric(token: string, path: string, base: Values, metrics: seq<string>, ghost before: Calls)
      returns (r: Result<InsightSet>, ghost asked: nat)
      requires Sent(QueryOf(token, path, base.entries), metrics, before, client.calls, 1)
      modifies client
      ensures base.entries == old(base.entries)
      ensures var q := QueryOf(token, path, base.entries);
              && Each(q, old(client.log), metrics, client.log, r, asked)
              && Sent(q, metrics, before, client.calls, 1 + asked)
    {
      ghost var q := QueryOf(token, path, base.entries);
      ghost var answers := [];
      asked := 0;
      var out := InsightSet([], []);
      for i := 0 to |metrics|
        invariant base.entries == old(base.entries) && asked == i
        invariant SoFar(q, old(client.log), metrics, i, client.log, answers, out)
        invariant Sent(q, metrics, before, client.calls, 1 + i)
      {
        ghost var log, middle := client.log, client.calls;
        var one := Insights(token, path, base, [metrics[i]]);
        OneMore(q, old(client.log), metrics, i, log, answers, out, client.log, one);
        SentOneMore(q, metrics, before, middle, client.calls, 1 + i);
        asked, answers := i + 1, answers + [one];
        if one.Ok? {
          out := out.(insights := out.insights + one.value);
        } else if Unsupported(one) {
          out := out.(rejected := out.rejected + [metrics[i]]);
        } else {
          return Failed(one.why), asked;
        }
      }
      assert metrics[..|metrics|] == metrics;
      return Ok(out), asked;
    }

    /** follower_count only exists as a daily series, everything else as a total. */
    method SplitMetrics(metrics: seq<string>) returns (totals: seq<string>, series: seq<string>)
      ensures totals == Keep(metrics, true) && series == Keep(metrics, false)
    {
      totals, series := [], [];
      for i := 0 to |metrics|
        invariant totals == Keep(metrics[..i], true) && series == Keep(metrics[..i], false)
      {
        assert metrics[..i + 1][..i] == metrics[..i];
        if metrics[i] == FOLLOWER_COUNT {
          series := series + [metrics[i]];
        } else {
          totals := totals + [metrics[i]];
        }
      }
      assert metrics[..|metrics|] == metrics;
    }

    /** One of the two halves: nothing is sent for an empty list. */
    method OneShape(token: string, path: string, total: bool, metrics: seq<string>, since: Option<string>,
        until: Option<string>)
      returns (r: Result<InsightSet>, ghost read: Reading)
      requires AllOfShape(metrics, total)
      modifies client
      ensures read == Reading(client.log, r, read.sent)
      ensures Fallback(Shaped(QueryOf(token, path, map[]), total, since, until), old(client.log), metrics, read)
      ensures AllRightShape(QueryOf(token, path, map[]), since, until, old(client.calls), client.calls)
    {
      if |metrics| == 0 {
        return Ok(InsightSet([], [])), Reading(client.log, Ok(InsightSet([], [])), 0);
      }
      var base := new Values(IGBase(total, since, until));
      ghost var sent;
      r, sent := InsightsWithFallback(token, path, base, metrics);
      read := Reading(client.log, r, sent);
      SentShape(QueryOf(token, path, map[]), total, since, until, metrics, old(client.calls), client.calls, sent);
    }

    method IGAccountInsights(token: string, path: string, metrics: seq<string>, since: Option<string>,
        until: Option<string>)
      returns (r: Result<InsightSet>, ghost totalsRead: Reading, ghost seriesRead: Reading)
      modifies client
      ensures BothShapes(QueryOf(token, path, map[]), since, until, metrics, old(client.log), totalsRead, seriesRead,
              client.log, r)
      ensures AllRightShape(QueryOf(token, path, map[]), since, until, old(client.calls), client.calls)
    {
      var totals, series := SplitMetrics(metrics);
      KeepMeaning(metrics, true);
      KeepMeaning(metrics, false);
      r, totalsRead := OneShape(token, path, true, totals, since, until);
      seriesRead := totalsRead;
      if r.Ok? {
        var out := r.value;
        ghost var middle := client.calls;
        r, seriesRead := OneShape(token, path, false, series, since, until);
        ShapesAppend(QueryOf(token, path, map[]), since, until, old(client.calls), middle, client.calls);
        if r.Ok? {
          r := Ok(Merged(out, r.value));
        }
      }
    }
  }

  ghost predicate Sent1(req: Request, before: Calls, after: Calls) {
    |after| == |before| + 1 && after[..|before|] == before && after[|before|].0 == req
  }

  lemma {:induction false} ReadAllStops(readItem: string -> Option<Insight>, items: seq<string>, k: nat)
    requires k < |items| && readItem(items[k]).None?
    ensures ReadAll(readItem, items).None?
    decreases |items|
  {
    if k < |items| - 1 {
      ReadAllStops(readItem, items[..|items| - 1], k);
    }
  }

  /** A payload is read item by item, each where it stands, and not at all when one cannot be read. */
  lemma {:induction false} ReadAllMeaning(readItem: string -> Option<Insight>, items: seq<string>, read: seq<Insight>)
    ensures ReadAll(readItem, items) == Some(read) <==>
            |read| == |items| && forall i :: 0 <= i < |items| ==> readItem(items[i]) == Some(read[i])
    decreases |items|
  {
    if items != [] && read != [] {
      var n := |items| - 1;
      ReadAllMeaning(readItem, items[..n], read[..|read| - 1]);
      assert read == read[..|read| - 1] + [read[|read| - 1]];
      if ReadAll(readItem, items[..n]).Some? {
        ReadAllMeaning(readItem, items[..n], ReadAll(readItem, items[..n]).value);
      }
    }
  }

  // ----- what the fallback did, request by request -----

  /** Meta refused the request because it does not serve one of its metrics. */
  predicate Code100(answer: Answer) { answer.Failed? && answer.why.GraphFailure? && answer.why.err.code == 100 }

  /** The first metrics asked for one after the other: the logs before and after each request, and the answers. */
  ghost predicate Chain(q: Query, metrics: seq<string>, logs: seq<Log>, answers: seq<Answer>) {
    && |answers| <= |metrics| && |logs| == |answers| + 1
    && forall i :: 0 <= i < |answers| ==> Ask(q, logs[i], [metrics[i]]) == (logs[i + 1], answers[i])
  }

  lemma ChainOneMore(q: Query, metrics: seq<string>, logs: seq<Log>, answers: seq<Answer>, log': Log, last: Answer)
    requires Chain(q, metrics, logs, answers) && |answers| < |metrics|
    requires Ask(q, logs[|answers|], [metrics[|answers|]]) == (log', last)
    ensures Chain(q, metrics, logs + [log'], answers + [last])
  {
  }

  lemma SinglesOneMore(q: Query, log: Log, metrics: seq<string>, n: nat, log': Log, last: Answer)
    requires n < |metrics| && Ask(q, Singles(q, log, metrics[..n]).0, [metrics[n]]) == (log', last)
    ensures Singles(q, log, metrics[..n + 1]) == (log', Singles(q, log, metrics[..n]).1 + [last])
  {
    assert metrics[..n + 1][..n] == metrics[..n];
  }

  lemma {:induction false} SinglesChain(q: Query, log: Log, metrics: seq<string>, n: nat) returns (logs: seq<Log>)
    requires n <= |metrics|
    ensures Chain(q, metrics, logs, Singles(q, log, metrics[..n]).1)
    ensures logs[0] == log && logs[n] == Singles(q, log, metrics[..n]).0
    decreases n
  {
    if n == 0 {
      logs := [log];
    } else {
      logs := SinglesChain(q, log, metrics, n - 1);
      var (log', last) := Ask(q, Singles(q, log, metrics[..n - 1]).0, [metrics[n - 1]]);
      ChainOneMore(q, metrics, logs, Singles(q, log, metrics[..n - 1]).1, log', last);
      SinglesOneMore(q, log, metrics, n - 1, log', last);
      logs := logs + [log'];
    }
  }

  /** The reading stopped where it did for a reason: it asks for one metric after the other, rejects the ones answered
      with code 100 and no others, and ends with the first other error. */
  lemma EachMeaning(q: Query, log: Log, metrics: seq<string>, log': Log, r: Result<InsightSet>, asked: nat)
    returns (logs: seq<Log>, answers: seq<Answer>)
    requires Each(q, log, metrics, log', r, asked)
    ensures |answers| == asked && Chain(q, metrics, logs, answers) && logs[0] == log && logs[asked] == log'
    ensures forall i :: 0 <= i < asked - 1 ==> answers[i].Ok? || Code100(answers[i])
    ensures r.Failed? ==> asked > 0 && answers[asked - 1] == Failed(r.why) && !Code100(Failed(r.why))
    ensures r.Ok? ==>
              && asked == |metrics| && (forall i :: 0 <= i < asked ==> answers[i].Ok? || Code100(answers[i]))
              && forall m: string :: m in r.value.rejected <==>
                   exists i :: 0 <= i < asked && metrics[i] == m && Code100(answers[i])
  {
    SinglesPrefix(q, log, metrics, asked);
    logs := SinglesChain(q, log, metrics, asked);
    var all := Singles(q, log, metrics).1;
    answers := all[..asked];
    if r.Ok? {
      assert answers == all;
      forall m: string
        ensures m in r.value.rejected <==> exists i :: 0 <= i < asked && metrics[i] == m && Code100(answers[i])
      {
        RefusalsMeaning(metrics, answers, m);
      }
    }
  }

  lemma {:induction false} RefusalsMeaning(metrics: seq<string>, answers: seq<Answer>, m: string)
    requires |metrics| == |answers|
    ensures m in Refusals(metrics, answers) <==>
            exists i :: 0 <= i < |metrics| && metrics[i] == m && Code100(answers[i])
    decreases |metrics|
  {
    if metrics != [] {
      var n := |metrics| - 1;
      RefusalsMeaning(metrics[..n], answers[..n], m);
      var refused := Unsupported(answers[n]);
      assert refused == Code100(answers[n]);
      assert Refusals(metrics, answers)
          == Refusals(metrics[..n], answers[..n]) + (if refused then [metrics[n]] else []);
      if i :| 0 <= i < n && metrics[i] == m && Code100(answers[i]) {
        assert metrics[..n][i] == m && Code100(answers[..n][i]);
      }
    }
  }

  /** A batch that Meta accepts is the answer, one refused with code 100 is asked for metric by metric, and any other
      failure is passed on; the list goes out in one request first, unless it is empty. */
  lemma FallbackMeaning(q: Query, log: Log, metrics: seq<string>, r: Reading)
    requires Fallback(q, log, metrics, r)
    ensures metrics == [] <==> r.sent == 0
    ensures metrics == [] ==> r == Reading(log, Ok(InsightSet([], [])), 0)
    ensures metrics != [] ==>
              var (log1, batch) := Ask(q, log, metrics);
              && (batch.Ok? ==> r == Reading(log1, Ok(InsightSet(batch.value, [])), 1))
              && (batch.Failed? && !Code100(batch) ==> r == Reading(log1, Failed(batch.why), 1))
              && (Code100(batch) ==> r.sent >= 1 && Each(q, log1, metrics, r.log, r.result, r.sent - 1))
  {
  }

  // ----- when the batch and the single requests agree -----

  /** Meta's answers to this query do not depend on what was asked before. */
  ghost predicate Steady(q: Query, answer: seq<string> -> Answer) {
    forall log, metrics :: Ask(q, log, metrics).1 == answer(metrics)
  }

  /** An accepted list is answered by the answers to its members, one after the other. */
  predicate Additive(answer: seq<string> -> Answer, metrics: seq<string>) {
    answer(metrics).Ok? ==>
      var singles := seq(|metrics|, i requires 0 <= i < |metrics| => answer([metrics[i]]));
      (forall i :: 0 <= i < |singles| ==> singles[i].Ok?) && answer(metrics).value == Served(singles)
  }

  lemma {:induction false} SteadySingles(q: Query, log: Log, metrics: seq<string>, answer: seq<string> -> Answer)
    requires Steady(q, answer)
    ensures Singles(q, log, metrics).1 == seq(|metrics|, i requires 0 <= i < |metrics| => answer([metrics[i]]))
    decreases |metrics|
  {
    if metrics != [] {
      var front := metrics[..|metrics| - 1];
      SteadySingles(q, log, front, answer);
      assert Ask(q, Singles(q, log, front).0, [metrics[|metrics| - 1]]).1 == answer([metrics[|metrics| - 1]]);
    }
  }

  lemma {:induction false} NothingRefused(metrics: seq<string>, answers: seq<Answer>)
    requires |metrics| == |answers| && forall i :: 0 <= i < |answers| ==> answers[i].Ok?
    ensures Refusals(metrics, answers) == []
    decreases |metrics|
  {
    if metrics != [] {
      NothingRefused(metrics[..|metrics| - 1], answers[..|metrics| - 1]);
    }
  }

  /** The fast form refines the simple one: a batch with its fallback that succeeds answers what asking metric
      by metric answers, and it disagrees only by passing on an error that condemned the whole batch. */
  lemma BatchRefinesSingles(q: Query, log: Log, metrics: seq<string>, answer: seq<string> -> Answer, r: Reading)
    requires Steady(q, answer) && Additive(answer, metrics) && Fallback(q, log, metrics, r)
    ensures OneByOne(q, log, metrics, r.result) ||
            (metrics != [] && !Tolerable(answer(metrics)) && r.result == Failed(answer(metrics).why))
    ensures r.result.Ok? ==> OneByOne(q, log, metrics, r.result)
    ensures r.sent <= 1 || (Unsupported(answer(metrics)) && (r.result.Ok? ==> r.sent == 1 + |metrics|))
  {
    var (log1, batch) := Ask(q, log, metrics);
    assert batch == answer(metrics);
    SteadySingles(q, log, metrics, answer);
    if metrics != [] && batch.Ok? {
      AcceptedBatch(q, log, metrics, batch.value);
    } else if metrics != [] && Unsupported(batch) {
      SteadySingles(q, log1, metrics, answer);
      SameAnswers(q, log, log1, metrics, r.result);
    }
  }

  lemma AcceptedBatch(q: Query, log: Log, metrics: seq<string>, got: seq<Insight>)
    requires var answers := Singles(q, log, metrics).1;
             (forall i :: 0 <= i < |answers| ==> answers[i].Ok?) && got == Served(answers)
    ensures OneByOne(q, log, metrics, Ok(InsightSet(got, [])))
  {
    NothingRefused(metrics, Singles(q, log, metrics).1);
  }

  lemma SameAnswers(q: Query, log: Log, log1: Log, metrics: seq<string>, r: Result<InsightSet>)
    requires Singles(q, log, metrics).1 == Singles(q, log1, metrics).1 && OneByOne(q, log1, metrics, r)
    ensures OneByOne(q, log, metrics, r)
  {
  }

  // ----- nothing requested is lost -----

  function Names(insights: seq<Insight>): seq<string> {
    if insights == [] then [] else Names(insights[..|insights| - 1]) + [insights[|insights| - 1].metric]
  }

  lemma {:induction false} NamesAppend(a: seq<Insight>, b: seq<Insight>)
    ensures Names(a + b) == Names(a) + Names(b)
    decreases |b|
  {
    if b == [] {
      assert a + b == a;
    } else {
      assert (a + b)[..|a + b| - 1] == a + b[..|b| - 1];
      NamesAppend(a, b[..|b| - 1]);
    }
  }

  predicate OneEach(answer: Answer, metrics: seq<string>) {
    answer.Ok? ==> multiset(Names(answer.value)) == multiset(metrics)
  }

  /** Meta answers an accepted request with one insight for every name its metric parameter spells out. */
  ghost predicate OneInsightPerName(q: Query) {
    forall log, metrics :: metrics != [] ==> OneEach(Ask(q, log, metrics).1, Split(Join(metrics, ",")))
  }

  predicate Conserves(metrics: seq<string>, got: InsightSet) {
    multiset(Names(got.insights)) + multiset(got.rejected) == multiset(metrics)
  }

  function Added(got: InsightSet, metric: string, one: Answer): InsightSet {
    InsightSet(got.insights + (if one.Ok? then one.value else []),
        got.rejected + (if Unsupported(one) then [metric] else []))
  }

  lemma ConserveAnswer(metrics: seq<string>, got: InsightSet, metric: string, more: seq<Insight>)
    requires Conserves(metrics, got) && multiset(Names(more)) == multiset{metric}
    ensures Conserves(metrics + [metric], InsightSet(got.insights + more, got.rejected))
  {
    NamesAppend(got.insights, more);
    assert multiset(Names(got.insights + more)) == multiset(Names(got.insights)) + multiset{metric};
  }

  lemma ConserveRejection(metrics: seq<string>, got: InsightSet, metric: string)
    requires Conserves(metrics, got)
    ensures Conserves(metrics + [metric], InsightSet(got.insights, got.rejected + [metric]))
  {
  }

  lemma ConserveOneMore(metrics: seq<string>, got: InsightSet, metric: string, one: Answer)
    requires Conserves(metrics, got) && Tolerable(one) && (one.Ok? ==> OneEach(one, [metric]))
    ensures Conserves(metrics + [metric], Added(got, metric, one))
  {
    if one.Ok? {
      assert got.rejected + [] == got.rejected;
      ConserveAnswer(metrics, got, metric, one.value);
    } else {
      assert got.insights + [] == got.insights;
      ConserveRejection(metrics, got, metric);
    }
  }

  /** Every answer names what its metric spells out. */
  predicate EachAlone(metrics: seq<string>, answers: seq<Answer>) {
    |metrics| == |answers| && forall i :: 0 <= i < |answers| ==> OneEach(answers[i], Split(metrics[i]))
  }

  lemma AskedAlone(q: Query, log: Log, metric: string)
    requires OneInsightPerName(q)
    ensures OneEach(Ask(q, log, [metric]).1, Split(metric))
  {
    assert Join([metric], ",") == metric;
    assert OneEach(Ask(q, log, [metric]).1, Split(Join([metric], ",")));
  }

  /** Each single answer was asked for at some point of the log. */
  lemma {:induction false} SingleIsAsked(q: Query, log: Log, metrics: seq<string>, i: nat) returns (at: Log)
    requires i < |metrics|
    ensures Singles(q, log, metrics).1[i] == Ask(q, at, [metrics[i]]).1
    decreases |metrics|
  {
    var n := |metrics| - 1;
    if i == n {
      at := Singles(q, log, metrics[..n]).0;
    } else {
      at := SingleIsAsked(q, log, metrics[..n], i);
    }
  }

  lemma SinglesAlone(q: Query, log: Log, metrics: seq<string>)
    requires OneInsightPerName(q)
    ensures EachAlone(metrics, Singles(q, log, metrics).1)
  {
    var answers := Singles(q, log, metrics).1;
    forall i | 0 <= i < |answers| ensures OneEach(answers[i], Split(metrics[i])) {
      var at := SingleIsAsked(q, log, metrics, i);
      AskedAlone(q, at, metrics[i]);
    }
  }

  function Answered(metrics: seq<string>, answers: seq<Answer>): InsightSet
    requires |metrics| == |answers|
  {
    InsightSet(Served(answers), Refusals(metrics, answers))
  }

  lemma AnsweredLast(metrics: seq<string>, answers: seq<Answer>)
    requires |metrics| == |answers| > 0 && AllTolerable(answers)
    ensures var n := |metrics| - 1;
            && metrics == metrics[..n] + [metrics[n]]
            && Answered(metrics, answers) == Added(Answered(metrics[..n], answers[..n]), metrics[n], answers[n])
  {
  }

  lemma FallbackConserves(q: Query, log: Log, metrics: seq<string>, r: Reading)
    requires OneInsightPerName(q) && AllCommaFree(metrics) && Fallback(q, log, metrics, r) && r.result.Ok?
    ensures Conserves(metrics, r.result.value)
  {
    if metrics != [] {
      var (log1, batch) := Ask(q, log, metrics);
      if Unsupported(batch) {
        SinglesAlone(q, log1, metrics);
        AnsweredConserves(metrics, Singles(q, log1, metrics).1);
      } else {
        SplitJoin(metrics);
        assert OneEach(batch, Split(Join(metrics, ",")));
      }
    }
  }

  // ----- and a name with a comma is not conserved -----

  lemma SizeOfNames(answer: Answer, names: seq<string>)
    requires OneEach(answer, names) && answer.Ok?
    ensures |Names(answer.value)| == |names|
  {
    assert |multiset(Names(answer.value))| == |multiset(names)|;
  }

  function Size(got: InsightSet): nat { |Names(got.insights)| + |got.rejected| }

  /** One more metric adds one name or rejection, and more exactly when it is answered and holds a comma. */
  lemma SizeOneMore(got: InsightSet, metric: string, one: Answer)
    requires Tolerable(one) && OneEach(one, Split(metric))
    ensures var after := Size(Added(got, metric, one));
            after >= Size(got) + 1 && (after == Size(got) + 1 <==> (one.Ok? ==> CommaFree(metric)))
  {
    NoCommas(metric);
    if one.Ok? {
      SizeOfNames(one, Split(metric));
      NamesAppend(got.insights, one.value);
      assert got.rejected + [] == got.rejected;
    } else {
      assert got.insights + [] == got.insights;
    }
  }

  /** At least as many names and rejections as metrics; when nothing is rejected, as many only without commas. */
  predicate Spells(metrics: seq<string>, got: InsightSet) {
    Size(got) >= |metrics| && (got.rejected == [] && Size(got) == |metrics| ==> AllCommaFree(metrics))
  }

  lemma SpellOneMore(metrics: seq<string>, got: InsightSet, metric: string, one: Answer)
    requires Spells(metrics, got) && Tolerable(one) && OneEach(one, Split(metric))
    ensures Spells(metrics + [metric], Added(got, metric, one))
  {
    SizeOneMore(got, metric, one);
  }

  lemma {:induction false} AnswersSpell(metrics: seq<string>, answers: seq<Answer>)
    requires EachAlone(metrics, answers) && AllTolerable(answers)
    ensures Spells(metrics, Answered(metrics, answers))
    decreases |metrics|
  {
    if metrics != [] {
      var n := |metrics| - 1;
      AnswersSpell(metrics[..n], answers[..n]);
      SpellOneMore(metrics[..n], Answered(metrics[..n], answers[..n]), metrics[n], answers[n]);
      AnsweredLast(metrics, answers);
    }
  }

  lemma {:induction false} AnswersSpellExactly(metrics: seq<string>, answers: seq<Answer>)
    requires EachAlone(metrics, answers) && AllTolerable(answers)
    ensures var size := Size(Answered(metrics, answers));
            size >= |metrics| && (size == |metrics| <==> AnsweredCommaFree(metrics, answers))
    decreases |metrics|
  {
    if metrics != [] {
      var n := |metrics| - 1;
      AnswersSpellExactly(metrics[..n], answers[..n]);
      AnsweredCommaFreeLast(metrics, answers);
      AnsweredLast(metrics, answers);
      SizeOneMore(Answered(metrics[..n], answers[..n]), metrics[n], answers[n]);
    }
  }

  predicate AnsweredCommaFree(metrics: seq<string>, answers: seq<Answer>)
    requires |metrics| == |answers|
  {
    forall i :: 0 <= i < |answers| && answers[i].Ok? ==> CommaFree(metrics[i])
  }

  lemma AnsweredCommaFreeLast(metrics: seq<string>, answers: seq<Answer>)
    requires |metrics| == |answers| > 0
    ensures var n := |metrics| - 1;
            AnsweredCommaFree(metrics, answers)
            <==> AnsweredCommaFree(metrics[..n], answers[..n]) && (answers[n].Ok? ==> CommaFree(metrics[n]))
  {
    var n := |metrics| - 1;
    if AnsweredCommaFree(metrics, answers) {
      forall i | 0 <= i < n && answers[..n][i].Ok? ensures CommaFree(metrics[..n][i]) { assert answers[i].Ok?; }
    }
    if AnsweredCommaFree(metrics[..n], answers[..n]) {
      forall i | 0 <= i < n && answers[i].Ok? ensures CommaFree(metrics[i]) { assert answers[..n][i].Ok?; }
    }
  }

  lemma ConservedSize(metrics: seq<string>, got: InsightSet)
    requires Conserves(metrics, got)
    ensures Size(got) == |metrics|
  {
    assert |multiset(Names(got.insights)) + multiset(got.rejected)| == |multiset(metrics)|;
  }

  lemma {:induction false} CommaFreeConserves(metrics: seq<string>, answers: seq<Answer>)
    requires EachAlone(metrics, answers) && AllTolerable(answers) && AnsweredCommaFree(metrics, answers)
    ensures Conserves(metrics, Answered(metrics, answers))
    decreases |metrics|
  {
    if metrics != [] {
      var n := |metrics| - 1;
      AnsweredCommaFreeLast(metrics, answers);
      CommaFreeConserves(metrics[..n], answers[..n]);
      if answers[n].Ok? { SplitOne(metrics[n]); }
      ConserveOneMore(metrics[..n], Answered(metrics[..n], answers[..n]), metrics[n], answers[n]);
      AnsweredLast(metrics, answers);
    }
  }

  /** Metric by metric, conservation fails exactly when a metric with a comma is answered: a rejected one does
      no harm. */
  lemma AnsweredConserves(metrics: seq<string>, answers: seq<Answer>)
    requires EachAlone(metrics, answers) && AllTolerable(answers)
    ensures Conserves(metrics, Answered(metrics, answers)) <==> AnsweredCommaFree(metrics, answers)
  {
    if AnsweredCommaFree(metrics, answers) {
      CommaFreeConserves(metrics, answers);
    } else if Conserves(metrics, Answered(metrics, answers)) {
      ConservedSize(metrics, Answered(metrics, answers));
      AnswersSpellExactly(metrics, answers);
      assert false;
    }
  }

  lemma FallbackSpells(q: Query, log: Log, metrics: seq<string>, r: Reading)
    requires OneInsightPerName(q) && Fallback(q, log, metrics, r) && r.result.Ok?
    ensures Spells(metrics, r.result.value)
  {
    if metrics != [] {
      var (log1, batch) := Ask(q, log, metrics);
      if Unsupported(batch) {
        SinglesAlone(q, log1, metrics);
        AnswersSpell(metrics, Singles(q, log1, metrics).1);
      } else {
        assert OneEach(batch, Split(Join(metrics, ",")));
        SizeOfNames(batch, Split(Join(metrics, ",")));
        JoinSpellsOut(metrics);
      }
    }
  }

  // ----- a responder that answers every list -----

  /** It echoes the names it is asked for. */
  function Echo(path: string, base: map<string, string>): Query {
    var http := (log: Log, req: Request) => Body(if "metric" in req.params then req.params["metric"] else "");
    var w := World(http, (log: Log, delay: Time) => true, text => Some(ListPage(Split(text), "")), false, token =>
        "", 0);
    Query(w, name => Some(Insight(name, "")), "", path, base)
  }

  lemma {:induction false} EchoReads(path: string, base: map<string, string>, items: seq<string>)
    ensures var read := ReadAll(Echo(path, base).readItem, items); read.Some? && Names(read.value) == items
    decreases |items|
  {
    if items != [] { EchoReads(path, base, items[..|items| - 1]); }
  }

  lemma EchoAnswers(path: string, base: map<string, string>, log: Log, metrics: seq<string>)
    ensures var q := Echo(path, base); CallSpec(q.w, log, MetricRequest(q, metrics)).1 == Ok(Join(metrics, ","))
  {
    var q := Echo(path, base);
    var req := MetricRequest(q, metrics);
    assert q.w.http(log, req) == Body(Join(metrics, ","));
  }

  /** It accepts every list, and meets what the conservation theorem asks of Meta. */
  lemma EchoAccepts(path: string, base: map<string, string>, log: Log, metrics: seq<string>)
    ensures var answer := Ask(Echo(path, base), log, metrics).1;
            answer.Ok? && Names(answer.value) == Split(Join(metrics, ","))
  {
    var q, joined := Echo(path, base), Join(metrics, ",");
    EchoAnswers(path, base, log, metrics);
    EchoReads(path, base, Split(joined));
    assert q.w.decodePage(joined) == Some(ListPage(Split(joined), ""));
    EchoBody(path, base, joined);
  }

  lemma EchoBody(path: string, base: map<string, string>, text: string)
    ensures var q := Echo(path, base);
            ReadBody(q, Ok(text)) ==
                (var read := ReadAll(q.readItem, Split(text)); if read.Some? then Ok(read.value)
                else Failed(Undecodable))
  {
  }

  lemma EchoIsOneInsightPerName(path: string, base: map<string, string>)
    ensures OneInsightPerName(Echo(path, base))
    ensures forall log, metrics :: Ask(Echo(path, base), log, metrics).1.Ok?
  {
    forall log, metrics
      ensures Ask(Echo(path, base), log, metrics).1.Ok?
              && OneEach(Ask(Echo(path, base), log, metrics).1, Split(Join(metrics, ",")))
    {
      EchoAccepts(path, base, log, metrics);
    }
  }

  // ----- Instagram: two shapes of query -----

  function Keep(metrics: seq<string>, total: bool): seq<string> {
    if metrics == [] then []
    else
      var last := metrics[|metrics| - 1];
      Keep(metrics[..|metrics| - 1], total) + (if (last == FOLLOWER_COUNT) != total then [last] else [])
  }

  predicate AllOfShape(metrics: seq<string>, total: bool) {
    forall m <- metrics :: (m == FOLLOWER_COUNT) != total
  }

  lemma {:induction false} KeepMeaning(metrics: seq<string>, total: bool)
    ensures AllOfShape(Keep(metrics, total), total)
    decreases |metrics|
  {
    if metrics != [] { KeepMeaning(metrics[..|metrics| - 1], total); }
  }

  /** Each list keeps the order of the request: it stands at rising positions of it. */
  lemma {:induction false} KeepInOrder(metrics: seq<string>, total: bool) returns (at: seq<nat>)
    ensures |at| == |Keep(metrics, total)|
    ensures forall i :: 0 <= i < |at| ==> at[i] < |metrics| && metrics[at[i]] == Keep(metrics, total)[i]
    ensures forall i, j :: 0 <= i < j < |at| ==> at[i] < at[j]
    decreases |metrics|
  {
    at := [];
    if metrics != [] {
      var n := |metrics| - 1;
      at := KeepInOrder(metrics[..n], total);
      if (metrics[n] == FOLLOWER_COUNT) != total { at := at + [n]; }
    }
  }

  /** Together the two lists are the request as a multiset. */
  lemma {:induction false} SplitConserves(metrics: seq<string>)
    ensures multiset(Keep(metrics, true)) + multiset(Keep(metrics, false)) == multiset(metrics)
    decreases |metrics|
  {
    if metrics != [] {
      assert metrics == metrics[..|metrics| - 1] + [metrics[|metrics| - 1]];
      SplitConserves(metrics[..|metrics| - 1]);
    }
  }

  function IGBase(total: bool, since: Option<string>, until: Option<string>): map<string, string> {
    var shape := if total then map["period" := "day", "metric_type" := "total_value"] else map["period" := "day"];
    var from := if since.Some? then shape["since" := since.value] else shape;
    if until.Some? then from["until" := until.value] else from
  }

  /** The request for a list of Instagram metrics, parameter by parameter: one value a day, as a total or as a series,
      between the bounds that are given. */
  lemma InsightParameters(q: Query, total: bool, since: Option<string>, until: Option<string>, metrics: seq<string>)
    ensures var sent := MetricRequest(Shaped(q, total, since, until), metrics);
            && sent.verb == GET && sent.url == q.path
            && Carries(sent.params, "metric", true, Join(metrics, ","))
            && Carries(sent.params, "period", true, "day")
            && Carries(sent.params, "metric_type", total, "total_value")
            && Carries(sent.params, "since", since.Some?, if since.Some? then since.value else "")
            && Carries(sent.params, "until", until.Some?, if until.Some? then until.value else "")
            && Carries(sent.params, "access_token", q.token != "", q.token)
            && sent.params.Keys
               <= {"metric", "period", "metric_type", "since", "until", "access_token", "appsecret_proof"}
  {
    CredentialsMeaning(q.w, IGBase(total, since, until)["metric" := Join(metrics, ",")], q.token);
  }

  function Shaped(q: Query, total: bool, since: Option<string>, until: Option<string>): Query {
    q.(base := IGBase(total, since, until))
  }

  /** A request for follower_count alone and without metric_type, or one without follower_count and with it. */
  ghost predicate RightShape(q: Query, since: Option<string>, until: Option<string>, req: Request) {
    exists total: bool, metrics: seq<string> ::
      AllOfShape(metrics, total) && ("metric_type" in req.params) == total
          && req == MetricRequest(Shaped(q, total, since, until), metrics)
  }

  /** Every call made since `before` has the right shape. */
  ghost predicate AllRightShape(q: Query, since: Option<string>, until: Option<string>, before: Calls, after: Calls) {
    && |before| <= |after| && after[..|before|] == before
    && forall i :: |before| <= i < |after| ==> RightShape(q, since, until, after[i].0)
  }

  lemma SentShape(q: Query, total: bool, since: Option<string>, until: Option<string>, metrics: seq<string>,
      before: Calls, after: Calls, sent: nat)
    requires Sent(Shaped(q, total, since, until), metrics, before, after, sent) && AllOfShape(metrics, total)
    ensures AllRightShape(q, since, until, before, after)
  {
    forall i | |before| <= i < |after| ensures RightShape(q, since, until, after[i].0) {
      var k := i - |before|;
      assert after[|before| + k].0 == RequestAt(Shaped(q, total, since, until), metrics, k);
      var asked := if k == 0 then metrics else [metrics[k - 1]];
      assert k > 0 ==> metrics[k - 1] in metrics;
      assert AllOfShape(asked, total);
    }
  }

  lemma ShapesAppend(q: Query, since: Option<string>, until: Option<string>, before: Calls, middle: Calls, after: Calls)
    requires AllRightShape(q, since, until, before, middle) && AllRightShape(q, since, until, middle, after)
    ensures AllRightShape(q, since, until, before, after)
  {
    assert after[..|before|] == middle[..|before|];
    forall i | |before| <= i < |middle|
        ensures RightShape(q, since, until, after[i].0) { assert after[i] == middle[i]; }
  }

  /** The totals first, then the series, merged; the first failure is the answer. */
  ghost predicate BothShapes(q: Query, since: Option<string>, until: Option<string>, metrics: seq<string>,
                             log: Log, t: Reading, s: Reading, log': Log, r: Result<InsightSet>) {
    && Fallback(Shaped(q, true, since, until), log, Keep(metrics, true), t)
    && if t.result.Failed? then log' == t.log && r == t.result
       else
         && Fallback(Shaped(q, false, since, until), t.log, Keep(metrics, false), s) && log' == s.log
         && r == (if s.result.Failed? then s.result
                 else Ok(InsightSet(t.result.value.insights + s.result.value.insights,
                                    t.result.value.rejected + s.result.value.rejected)))
  }

  function Merged(a: InsightSet, b: InsightSet): InsightSet {
    InsightSet(a.insights + b.insights, a.rejected + b.rejected)
  }

  lemma MergeConserves(metrics: seq<string>, a: InsightSet, b: InsightSet)
    requires Conserves(Keep(metrics, true), a) && Conserves(Keep(metrics, false), b)
    ensures Conserves(metrics, Merged(a, b))
  {
    NamesAppend(a.insights, b.insights);
    SplitConserves(metrics);
  }

  lemma {:induction false} KeepFrom(metrics: seq<string>, total: bool)
    ensures forall m :: m in Keep(metrics, total) <==> m in metrics && (m == "follower_count") != total
    decreases |metrics|
  {
    if metrics != [] {
      KeepFrom(metrics[..|metrics| - 1], total);
      assert metrics == metrics[..|metrics| - 1] + [metrics[|metrics| - 1]];
    }
  }

  lemma MergeSpells(metrics: seq<string>, a: InsightSet, b: InsightSet)
    requires Spells(Keep(metrics, true), a) && Spells(Keep(metrics, false), b)
    ensures Spells(metrics, Merged(a, b))
  {
    NamesAppend(a.insights, b.insights);
    SplitConserves(metrics);
    assert |multiset(Keep(metrics, true))| + |multiset(Keep(metrics, false))| == |multiset(metrics)|;
    KeepFrom(metrics, true);
    KeepFrom(metrics, false);
    if AllCommaFree(Keep(metrics, true)) && AllCommaFree(Keep(metrics, false)) {
      assert AllCommaFree(metrics) by {
        forall m | m in metrics ensures CommaFree(m) { assert m in Keep(metrics, true) || m in Keep(metrics, false); }
      }
    }
  }

  /** A successful answer names or rejects every requested metric, as often as it was requested, when no requested
      name holds a comma; and when nothing is rejected, only then. */
  lemma IGConserves(q: Query, since: Option<string>, until: Option<string>, metrics: seq<string>,
                    log: Log, t: Reading, s: Reading, log': Log, r: Result<InsightSet>)
    requires BothShapes(q, since, until, metrics, log, t, s, log', r) && r.Ok?
    requires OneInsightPerName(Shaped(q, true, since, until)) && OneInsightPerName(Shaped(q, false, since, until))
    ensures AllCommaFree(metrics) ==> Conserves(metrics, r.value)
    ensures r.value.rejected == [] ==> (Conserves(metrics, r.value) <==> AllCommaFree(metrics))
  {
    var totals, series := Shaped(q, true, since, until), Shaped(q, false, since, until);
    if AllCommaFree(metrics) {
      KeepFrom(metrics, true);
      KeepFrom(metrics, false);
      FallbackConserves(totals, log, Keep(metrics, true), t);
      FallbackConserves(series, t.log, Keep(metrics, false), s);
      MergeConserves(metrics, t.result.value, s.result.value);
    }
    FallbackSpells(totals, log, Keep(metrics, true), t);
    FallbackSpells(series, t.log, Keep(metrics, false), s);
    MergeSpells(metrics, t.result.value, s.result.value);
    SpellsConserves(metrics, r.value);
  }

  lemma SpellsConserves(metrics: seq<string>, got: InsightSet)
    requires Spells(metrics, got)
    ensures got.rejected == [] && Conserves(metrics, got) ==> AllCommaFree(metrics)
  {
    if Conserves(metrics, got) { ConservedSize(metrics, got); }
  }

  /** Whatever Meta accepts or rejects, a successful answer to this request is a permutation of it. */
  ghost predicate AlwaysConserves(since: Option<string>, until: Option<string>, metrics: seq<string>) {
    forall q: Query, log: Log, t: Reading, s: Reading, log': Log, got: InsightSet ::
      BothShapes(q, since, until, metrics, log, t, s, log', Ok(got))
      && OneInsightPerName(Shaped(q, true, since, until)) && OneInsightPerName(Shaped(q, false, since, until)) ==>
        Conserves(metrics, got)
  }

  /** One batch of the echo: it is accepted, and nothing is rejected. */
  lemma EchoReading(path: string, base: map<string, string>, log: Log, metrics: seq<string>) returns (r: Reading)
    ensures Fallback(Echo(path, base), log, metrics, r) && r.result.Ok? && r.result.value.rejected == []
  {
    if metrics == [] {
      r := Reading(log, Ok(InsightSet([], [])), 0);
    } else {
      EchoAccepts(path, base, log, metrics);
      var (log1, batch) := Ask(Echo(path, base), log, metrics);
      r := Reading(log1, Ok(InsightSet(batch.value, [])), 1);
    }
  }

  lemma EchoAnswersBoth(since: Option<string>, until: Option<string>, metrics: seq<string>)
    returns (q: Query, t: Reading, s: Reading, got: InsightSet)
    ensures BothShapes(q, since, until, metrics, [], t, s, s.log, Ok(got)) && got.rejected == []
    ensures OneInsightPerName(Shaped(q, true, since, until)) && OneInsightPerName(Shaped(q, false, since, until))
  {
    q := Echo("insights", map[]);
    var totals, series := IGBase(true, since, until), IGBase(false, since, until);
    assert Shaped(q, true, since, until) == Echo("insights", totals);
    assert Shaped(q, false, since, until) == Echo("insights", series);
    EchoIsOneInsightPerName("insights", totals);
    EchoIsOneInsightPerName("insights", series);
    t := EchoReading("insights", totals, [], Keep(metrics, true));
    s := EchoReading("insights", series, t.log, Keep(metrics, false));
    got := Merged(t.result.value, s.result.value);
  }

  /** A request is sure to be conserved if and only if none of its names holds a comma. */
  lemma IGConservesExactly(since: Option<string>, until: Option<string>, metrics: seq<string>)
    ensures AlwaysConserves(since, until, metrics) <==> AllCommaFree(metrics)
  {
    if AllCommaFree(metrics) {
      forall q: Query, log: Log, t: Reading, s: Reading, log': Log, got: InsightSet
        | BothShapes(q, since, until, metrics, log, t, s, log', Ok(got))
          && OneInsightPerName(Shaped(q, true, since, until)) && OneInsightPerName(Shaped(q, false, since, until))
        ensures Conserves(metrics, got)
      {
        IGConserves(q, since, until, metrics, log, t, s, log', Ok(got));
      }
    } else {
      var q, t, s, got := EchoAnswersBoth(since, until, metrics);
      IGConserves(q, since, until, metrics, [], t, s, s.log, Ok(got));
      assert !Conserves(metrics, got);
    }
  }
}
