/** The two-step Instagram publication: create the containers, poll the parent, publish it once. */
module Publish {
  import opened Domain
  import opened Graph
  import opened Text

  const MAX_POLLS := 30
  const POLL_DELAY: Time := 2 * SECOND

  datatype IGRequest = IGRequest(mediaType: string, caption: string, imageURL: string, videoURL: string,
      children: seq<string>)

  /** The account, its token and how Meta's bodies are read: the id of a write, the status_code of a container. */
  datatype Account = Account(w: World, readID: string -> Option<string>, readStatus: string -> Option<string>,
      token: string, user: string)

  type Positive = n: nat | n > 0 witness 1

  /** The identifier a write call returned. */
  function IDOf(a: Account, body: Result<string>): Result<string> {
    if body.Failed? then body
    else match a.readID(body.value)
      case None => Failed(Undecodable)
      case Some(id) => if id == "" then Failed(MissingID) else Ok(id)
  }

  datatype Status = Finished | Over(why: Failure) | Pending

  function StatusOf(a: Account, body: Result<string>): Status {
    if body.Failed? then Over(body.why)
    else match a.readStatus(body.value)
      case None => Over(Undecodable)
      case Some(code) =>
        if code == "FINISHED" then Finished
        else if code == "ERROR" then Over(MediaRejected)
        else if code == "EXPIRED" then Over(MediaExpired)
        else Pending
  }

  /** Meta answered this status_code. */
  predicate Reads(a: Account, body: Result<string>, code: string) {
    body.Ok? && a.readStatus(body.value) == Some(code)
  }

  /** Meta answered some other status_code: the media is still being processed. */
  predicate Processing(a: Account, body: Result<string>) {
    body.Ok? && a.readStatus(body.value).Some? && a.readStatus(body.value).value !in {"FINISHED", "ERROR", "EXPIRED"}
  }

  // ----- the requests -----

  function Post(a: Account, path: string, params: map<string, string>): Request {
    Request(POST, path, WithCredentials(a.w, params, a.token))
  }

  function Slides(req: IGRequest): seq<string> {
    if req.mediaType == "CAROUSEL" then req.children else []
  }

  function ItemRequest(a: Account, imageURL: string): Request {
    Post(a, a.user + "/media", map["image_url" := imageURL, "is_carousel_item" := "true"])
  }

  function ParentParams(req: IGRequest, ids: seq<string>): map<string, string> {
    var titled := if req.caption != "" then map["caption" := req.caption] else map[];
    if req.mediaType == "STORIES" then
      if req.videoURL != "" then map["media_type" := "STORIES", "video_url" := req.videoURL]
      else map["media_type" := "STORIES", "image_url" := req.imageURL]
    else if req.mediaType == "REELS" then titled["media_type" := "REELS"]["video_url" := req.videoURL]
    else if req.mediaType == "CAROUSEL" then titled["media_type" := "CAROUSEL"]["children" := Join(ids, ",")]
    else titled["image_url" := req.imageURL]
  }

  function ParentRequest(a: Account, req: IGRequest, ids: seq<string>): Request {
    Post(a, a.user + "/media", ParentParams(req, ids))
  }

  function PollRequest(a: Account, container: string): Request {
    Request(GET, container, WithCredentials(a.w, map["fields" := "status_code,status"], a.token))
  }

  function PublishRequest(a: Account, container: string): Request {
    Post(a, a.user + "/media_publish", map["creation_id" := container])
  }

  // ----- the containers -----

  lemma ItemsPush(a: Account, urls: seq<string>, calls: Calls, ids: seq<string>, call: (Request, Result<string>),
      id: Result<string>)
    requires ItemsOf(a, urls, calls, ids) && |calls| < |urls|
    requires call.0 == ItemRequest(a, urls[|calls|]) && id == IDOf(a, call.1)
    ensures id.Ok? ==> ItemsOf(a, urls, calls + [call], ids + [id.value])
    ensures id.Failed? ==> Items(a, urls, calls + [call], Failed(id.why))
  {
    assert (calls + [call])[..|calls|] == calls;
  }

  ghost predicate ItemsOf(a: Account, urls: seq<string>, calls: Calls, ids: seq<string>) {
    && |ids| == |calls| <= |urls|
    && forall i :: 0 <= i < |calls| ==> calls[i].0 == ItemRequest(a, urls[i]) && IDOf(a, calls[i].1) == Ok(ids[i])
  }

  /** The slides in order up to the first failure. */
  ghost predicate Items(a: Account, urls: seq<string>, calls: Calls, r: Result<seq<string>>) {
    match r
    case Ok(ids) => |calls| == |urls| && ItemsOf(a, urls, calls, ids)
    case Failed(why) =>
      && 0 < |calls| <= |urls|
      && var last := |calls| - 1;
      && (exists ids :: ItemsOf(a, urls, calls[..last], ids))
      && calls[last].0 == ItemRequest(a, urls[last]) && IDOf(a, calls[last].1) == Failed(why)
  }

  /** All the slides and then the parent listing their ids in order, or the slides up to the first failure. */
  ghost predicate Containers(a: Account, req: IGRequest, calls: Calls, r: Result<string>) {
    var n := |Slides(req)|;
    || (|calls| <= n && r.Failed? && Items(a, Slides(req), calls, Failed(r.why)))
    || (|calls| == n + 1 && r == IDOf(a, calls[n].1)
        && exists ids :: Items(a, Slides(req), calls[..n], Ok(ids)) && calls[n].0 == ParentRequest(a, req, ids))
  }

  // ----- the polls -----

  datatype Polls = Polls(log: Log, calls: Calls, verdict: Result<()>)

  function PollDelay(w: World): Time {
    if 0 < w.retryDelay < POLL_DELAY then w.retryDelay else POLL_DELAY
  }

  /** At most `left` polls, with a wait between one poll and the next. */
  function PollSpec(a: Account, container: string, log: Log, left: nat): Polls
    decreases left
  {
    if left == 0 then Polls(log, [], Failed(NotReady))
    else
      var req := PollRequest(a, container);
      var (log1, body) := CallSpec(a.w, log, req);
      match StatusOf(a, body)
      case Finished => Polls(log1, [(req, body)], Ok(()))
      case Over(why) => Polls(log1, [(req, body)], Failed(why))
      case Pending =>
        if left == 1 then Polls(log1, [(req, body)], Failed(NotReady))
        else
          var pause := Pause(PollDelay(a.w), a.w.wait(log1, PollDelay(a.w)));
          if !pause.elapsed then Polls(log1 + [pause], [(req, body)], Failed(Cancelled))
          else
            var rest := PollSpec(a, container, log1 + [pause], left - 1);
            Polls(rest.log, [(req, body)] + rest.calls, rest.verdict)
  }

  function After(calls: Calls, p: Polls): Polls { p.(calls := calls + p.calls) }

  /** A poll that settles nothing, and its wait: the rest is polled from there. */
  lemma PollGoesOn(a: Account, container: string, log: Log, left: nat, calls: Calls, call: (Request, Result<string>),
      log': Log)
    requires left > 1 && call == (PollRequest(a, container), CallSpec(a.w, log, PollRequest(a, container)).1)
    requires StatusOf(a, call.1) == Pending
    requires var log1 := CallSpec(a.w, log, call.0).0;
             a.w.wait(log1, PollDelay(a.w)) && log' == log1 + [Pause(PollDelay(a.w), true)]
    ensures After(calls, PollSpec(a, container, log, left)) ==
            After(calls + [call], PollSpec(a, container, log', left - 1))
  {
    var rest := PollSpec(a, container, log', left - 1);
    assert calls + ([call] + rest.calls) == calls + [call] + rest.calls;
  }

  /** What the last poll answered decides: FINISHED is success, ERROR and EXPIRED are failures of their own, a failed
      or unreadable poll is passed on. */
  ghost predicate Decides(a: Account, body: Result<string>, verdict: Result<()>) {
    && (Reads(a, body, "FINISHED") ==> verdict == Ok(()))
    && (Reads(a, body, "ERROR") ==> verdict == Failed(MediaRejected))
    && (Reads(a, body, "EXPIRED") ==> verdict == Failed(MediaExpired))
    && (Processing(a, body) ==> verdict in {Failed(Cancelled), Failed(NotReady)})
    && (body.Failed? ==> verdict == Failed(body.why))
    && (body.Ok? && a.readStatus(body.value).None? ==> verdict == Failed(Undecodable))
  }

  /** Polls of one container until an answer settles it. */
  ghost predicate Polled(a: Account, container: string, calls: Calls, verdict: Result<()>) {
    && calls != []
    && (forall i :: 0 <= i < |calls| ==> calls[i].0 == PollRequest(a, container))
    && (forall i :: 0 <= i < |calls| - 1 ==> Processing(a, calls[i].1))
    && Decides(a, calls[|calls| - 1].1, verdict)
  }

  lemma PolledOneMore(a: Account, container: string, call: (Request, Result<string>), calls: Calls, verdict: Result<()>)
    requires call.0 == PollRequest(a, container) && Processing(a, call.1)
            && Polled(a, container, calls, verdict)
    ensures Polled(a, container, [call] + calls, verdict)
  {
    var all := [call] + calls;
    assert all[|all| - 1] == calls[|calls| - 1];
    assert forall i :: 0 < i < |all| ==> all[i] == calls[i - 1];
  }

  lemma {:induction false} PollMeaning(a: Account, container: string, log: Log, left: nat)
    requires left > 0
    ensures var polls := PollSpec(a, container, log, left);
            Polled(a, container, polls.calls, polls.verdict) && 1 <= |polls.calls| <= left
    decreases left
  {
    var req := PollRequest(a, container);
    var (log1, body) := CallSpec(a.w, log, req);
    var pause := Pause(PollDelay(a.w), a.w.wait(log1, PollDelay(a.w)));
    if StatusOf(a, body).Pending? && left > 1 && pause.elapsed {
      PollMeaning(a, container, log1 + [pause], left - 1);
      var rest := PollSpec(a, container, log1 + [pause], left - 1);
      PolledOneMore(a, container, (req, body), rest.calls, rest.verdict);
    }
  }

  /** Giving up without a failed wait takes all the polls there are. */
  lemma {:induction false} NotReadyIsLast(a: Account, container: string, log: Log, left: nat)
    requires left > 0
    ensures var polls := PollSpec(a, container, log, left);
            polls.verdict == Failed(NotReady) && Processing(a, polls.calls[|polls.calls| - 1].1) ==>
                |polls.calls| == left
    decreases left
  {
    PollMeaning(a, container, log, left);
    var req := PollRequest(a, container);
    var (log1, body) := CallSpec(a.w, log, req);
    var pause := Pause(PollDelay(a.w), a.w.wait(log1, PollDelay(a.w)));
    if StatusOf(a, body).Pending? && left > 1 && pause.elapsed {
      NotReadyIsLast(a, container, log1 + [pause], left - 1);
      PollMeaning(a, container, log1 + [pause], left - 1);
    }
  }

  // ----- how long it is polled, whatever Meta answers -----

  /** The log after a poll and a wait that elapsed. */
  function Polling(a: Account, container: string, log: Log): Log {
    CallSpec(a.w, log, PollRequest(a, container)).0 + [Pause(PollDelay(a.w), true)]
  }

  /** The log when poll number k is about to be sent, when every wait so far has elapsed. */
  function BeforePoll(a: Account, container: string, log: Log, k: nat): Log
    decreases k
  {
    if k == 0 then log else BeforePoll(a, container, Polling(a, container, log), k - 1)
  }

  function AnswerAt(a: Account, container: string, log: Log): Result<string> {
    CallSpec(a.w, log, PollRequest(a, container)).1
  }

  /** The wait after a poll elapses. */
  predicate WaitsAt(a: Account, container: string, log: Log) {
    a.w.wait(CallSpec(a.w, log, PollRequest(a, container)).0, PollDelay(a.w))
  }

  /** The first k polls find the media still processed, and nobody cancels a wait after them. */
  predicate Patient(a: Account, container: string, log: Log, k: nat)
    decreases k
  {
    k > 0 ==>
      && Processing(a, AnswerAt(a, container, log)) && WaitsAt(a, container, log)
      && Patient(a, container, Polling(a, container, log), k - 1)
  }

  lemma PollOnce(a: Account, container: string, log: Log, left: nat)
    requires left > 0
    ensures var polls, answer := PollSpec(a, container, log, left), AnswerAt(a, container, log);
            && polls.calls != [] && polls.calls[0].1 == answer
            && (!Processing(a, answer) ==> |polls.calls| == 1 && Decides(a, answer, polls.verdict))
            && (Processing(a, answer) && left == 1 ==> |polls.calls| == 1 && polls.verdict == Failed(NotReady))
            && (Processing(a, answer) && left > 1 && !WaitsAt(a, container, log) ==>
                |polls.calls| == 1 && polls.verdict == Failed(Cancelled))
            && (Processing(a, answer) && left > 1 && WaitsAt(a, container, log) ==>
                var rest := PollSpec(a, container, Polling(a, container, log), left - 1);
                polls.calls == [polls.calls[0]] + rest.calls && polls.verdict == rest.verdict && rest.calls != [])
  {
    if left > 1 { PollMeaning(a, container, Polling(a, container, log), left - 1); }
  }

  /** Polling stops at the first poll that settles the matter, which then decides; it gives up only with the last
      poll or with a cancelled wait. */
  lemma {:induction false} SettledAt(a: Account, container: string, log: Log, left: nat, k: nat)
    requires k < left && Patient(a, container, log, k)
    ensures var polls, before := PollSpec(a, container, log, left), BeforePoll(a, container, log, k);
            var answer := AnswerAt(a, container, before);
            && |polls.calls| > k && polls.calls[k].1 == answer
            && (!Processing(a, answer) ==> |polls.calls| == k + 1 && Decides(a, answer, polls.verdict))
            && (Processing(a, answer) && k + 1 == left ==>
                |polls.calls| == k + 1 && polls.verdict == Failed(NotReady))
            && (Processing(a, answer) && k + 1 < left && !WaitsAt(a, container, before) ==>
                |polls.calls| == k + 1 && polls.verdict == Failed(Cancelled))
            && (Processing(a, answer) && k + 1 < left && WaitsAt(a, container, before) ==> |polls.calls| > k + 1)
    decreases k
  {
    PollOnce(a, container, log, left);
    if k > 0 { SettledAt(a, container, Polling(a, container, log), left - 1, k - 1); }
  }

  /** Two seconds between polls, or the client's own delay when that is shorter. */
  lemma PollDelayMeaning(w: World)
    ensures PollDelay(w) == if 0 < w.retryDelay < 2_000_000_000 then w.retryDelay else 2_000_000_000
  {
  }

  // ----- the whole publication -----

  /** What became of a container: its polls and their verdict, the publish call if there was one, and the answer. */
  datatype Completion = Completion(polls: Calls, verdict: Result<()>, published: Calls, answer: Result<string>)

  /** One publication: the creations it made, the container they gave, and what became of it. */
  datatype Publication = Publication(created: Calls, container: Result<string>, rest: Completion)

  ghost predicate Publishes(a: Account, req: IGRequest, max: nat, p: Publication) {
    && Containers(a, req, p.created, p.container)
    && if p.container.Failed? then p.rest.polls == [] && p.rest.published == [] && p.rest.answer == p.container
       else Completes(a, p.container.value, max, p.rest)
  }

  /** One publish call for the container when a poll found it finished, none otherwise. */
  ghost predicate Completes(a: Account, container: string, max: nat, c: Completion) {
    && Polled(a, container, c.polls, c.verdict) && |c.polls| <= max
    && if c.verdict.Failed? then c.published == [] && c.answer == Failed(c.verdict.why)
       else
         && |c.published| == 1 && c.published[0].0 == PublishRequest(a, container)
         && c.answer == IDOf(a, c.published[0].1)
  }

  function Trace(p: Publication): Calls { p.created + p.rest.polls + p.rest.published }

  ghost predicate Grows(before: Calls, more: Calls, after: Calls) { after == before + more }

  // ----- what the calls leave in the log -----

  /** The wait of a poll, if that is what the log shows next. */
  predicate WaitsNext(w: World, log: Log, call: Request, log': Log) {
    call.verb == GET && |log| < |log'| && log'[|log|].Pause? && log'[|log|].delay == PollDelay(w)
  }

  /** The log grows from `log` to `log'` by these calls, in order, and nothing else but waits after polls. */
  ghost predicate Records(w: World, log: Log, calls: Calls, log': Log)
    decreases |calls|
  {
    if calls == [] then log' == log
    else
      var after := CallSpec(w, log, calls[0].0);
      && after.1 == calls[0].1
      && (Records(w, after.0, calls[1..], log')
          || (WaitsNext(w, after.0, calls[0].0, log') && Records(w, after.0 + [log'[|after.0|]], calls[1..], log')))
  }

  lemma RecordsOne(w: World, log: Log, call: (Request, Result<string>))
    requires CallSpec(w, log, call.0).1 == call.1
    ensures Records(w, log, [call], CallSpec(w, log, call.0).0)
  {
    assert [call][1..] == [];
  }

  lemma {:induction false} RecordsGrow(w: World, log: Log, calls: Calls, log': Log)
    requires Records(w, log, calls, log')
    ensures log <= log'
    decreases |calls|
  {
    if calls != [] {
      var after := CallSpec(w, log, calls[0].0).0;
      assert log <= after;
      if Records(w, after, calls[1..], log') {
        RecordsGrow(w, after, calls[1..], log');
      } else {
        RecordsGrow(w, after + [log'[|after|]], calls[1..], log');
      }
    }
  }

  lemma {:induction false} RecordsAppend(w: World, log: Log, a: Calls, middle: Log, b: Calls, log': Log)
    requires Records(w, log, a, middle) && Records(w, middle, b, log')
    ensures Records(w, log, a + b, log')
    decreases |a|
  {
    if a == [] {
      assert a + b == b;
    } else {
      var after := CallSpec(w, log, a[0].0).0;
      assert (a + b)[0] == a[0] && (a + b)[1..] == a[1..] + b;
      RecordsGrow(w, middle, b, log');
      if Records(w, after, a[1..], middle) {
        RecordsAppend(w, after, a[1..], middle, b, log');
      } else {
        RecordsAppend(w, after + [middle[|after|]], a[1..], middle, b, log');
      }
    }
  }

  lemma RecordsPush(w: World, log: Log, calls: Calls, middle: Log, call: (Request, Result<string>))
    requires Records(w, log, calls, middle) && CallSpec(w, middle, call.0).1 == call.1
    ensures Records(w, log, calls + [call], CallSpec(w, middle, call.0).0)
  {
    RecordsOne(w, middle, call);
    RecordsAppend(w, log, calls, middle, [call], CallSpec(w, middle, call.0).0);
  }

  lemma RecordsPoll(a: Account, container: string, log: Log, calls: Calls, log': Log)
    requires var after := CallSpec(a.w, log, PollRequest(a, container)).0;
             var pause := Pause(PollDelay(a.w), a.w.wait(after, PollDelay(a.w)));
             Records(a.w, after + [pause], calls, log')
    ensures Records(a.w, log, [(PollRequest(a, container), CallSpec(a.w, log, PollRequest(a, container)).1)] + calls,
            log')
  {
    var after := CallSpec(a.w, log, PollRequest(a, container));
    var call := (PollRequest(a, container), after.1);
    var pause := Pause(PollDelay(a.w), a.w.wait(after.0, PollDelay(a.w)));
    assert ([call] + calls)[1..] == calls;
    RecordsGrow(a.w, after.0 + [pause], calls, log');
    assert log'[|after.0|] == (after.0 + [pause])[|after.0|] == pause;
  }

  lemma {:induction false} PollRecords(a: Account, container: string, log: Log, left: nat)
    ensures var polls := PollSpec(a, container, log, left); Records(a.w, log, polls.calls, polls.log)
    decreases left
  {
    if left > 0 {
      var req := PollRequest(a, container);
      var after := CallSpec(a.w, log, req);
      var pause := Pause(PollDelay(a.w), a.w.wait(after.0, PollDelay(a.w)));
      if StatusOf(a, after.1).Pending? && left > 1 {
        if pause.elapsed {
          PollRecords(a, container, after.0 + [pause], left - 1);
          var rest := PollSpec(a, container, after.0 + [pause], left - 1);
          RecordsPoll(a, container, log, rest.calls, rest.log);
        } else {
          RecordsPoll(a, container, log, [], after.0 + [pause]);
          assert [(req, after.1)] + [] == [(req, after.1)];
        }
      } else {
        RecordsOne(a.w, log, (req, after.1));
      }
    }
  }

  /** What a client has done so far: in the log attempt by attempt, and call by call. */
  datatype Trail = Trail(log: Log, calls: Calls)

  ghost predicate Extends(w: World, before: Trail, calls: Calls, after: Trail) {
    Records(w, before.log, calls, after.log) && Grows(before.calls, calls, after.calls)
  }

  lemma ExtendsPush(w: World, before: Trail, calls: Calls, middle: Trail, call: (Request, Result<string>))
    requires Extends(w, before, calls, middle) && CallSpec(w, middle.log, call.0).1 == call.1
    ensures Extends(w, before, calls + [call], Trail(CallSpec(w, middle.log, call.0).0, middle.calls + [call]))
  {
    RecordsPush(w, before.log, calls, middle.log, call);
  }

  lemma ExtendsAppend(w: World, before: Trail, a: Calls, middle: Trail, b: Calls, after: Trail)
    requires Extends(w, before, a, middle) && Extends(w, middle, b, after)
    ensures Extends(w, before, a + b, after)
  {
    RecordsAppend(w, before.log, a, middle.log, b, after.log);
  }

  /** At some point of the log this call was made: attempted once, and a second time only after a rate-limit answer
      it waited out. */
  ghost predicate MadeOnce(w: World, log: Log, call: (Request, Result<string>), log': Log) {
    exists at: Log :: log <= at && MadeAt(w, at, call, log')
  }

  ghost predicate MadeAt(w: World, at: Log, call: (Request, Result<string>), log': Log) {
    && SingleRetry(CallEntries(w, at, call.0), call.0) && at + CallEntries(w, at, call.0) <= log'
    && CallSpec(w, at, call.0).1 == call.1
  }

  lemma FirstMadeOnce(w: World, log: Log, call: (Request, Result<string>), log': Log)
    requires CallSpec(w, log, call.0).1 == call.1 && CallSpec(w, log, call.0).0 <= log'
    ensures MadeOnce(w, log, call, log')
  {
    CallRetriesOnce(w, log, call.0);
    assert MadeAt(w, log, call, log');
  }

  lemma MadeLater(w: World, log: Log, next: Log, call: (Request, Result<string>), log': Log)
    requires log <= next && MadeOnce(w, next, call, log')
    ensures MadeOnce(w, log, call, log')
  {
    var at: Log :| next <= at && MadeAt(w, at, call, log');
    assert log <= at;
  }

  lemma {:induction false} EachMadeOnce(w: World, log: Log, calls: Calls, log': Log, i: nat)
    requires Records(w, log, calls, log') && i < |calls|
    ensures MadeOnce(w, log, calls[i], log')
    decreases |calls|
  {
    var after := CallSpec(w, log, calls[0].0).0;
    var next := if Records(w, after, calls[1..], log') then after else after + [log'[|after|]];
    RecordsGrow(w, next, calls[1..], log');
    if i == 0 {
      FirstMadeOnce(w, log, calls[0], log');
    } else {
      EachMadeOnce(w, next, calls[1..], log', i - 1);
      MadeLater(w, log, next, calls[i], log');
    }
  }

  /** One HTTP attempt a call at least, and two at most. */
  lemma {:induction false} AttemptsOfCalls(w: World, log: Log, calls: Calls, log': Log)
    requires Records(w, log, calls, log')
    ensures Attempts(log) + |calls| <= Attempts(log') <= Attempts(log) + 2 * |calls|
    decreases |calls|
  {
    if calls != [] {
      var entries := CallEntries(w, log, calls[0].0);
      var after := log + entries;
      CallRetriesOnce(w, log, calls[0].0);
      AttemptsAppend(log, entries);
      if Records(w, after, calls[1..], log') {
        AttemptsOfCalls(w, after, calls[1..], log');
      } else {
        AttemptsAfterWait(after, log'[|after|]);
        AttemptsOfCalls(w, after + [log'[|after|]], calls[1..], log');
      }
    }
  }

  lemma AttemptsAfterWait(log: Log, pause: Entry)
    requires pause.Pause?
    ensures Attempts(log + [pause]) == Attempts(log)
  {
    assert (log + [pause])[..|log|] == log;
  }

  /** The log after these calls, when nothing is waited for between them. */
  function LogAfter(w: World, log: Log, calls: Calls): Log
    decreases |calls|
  {
    if calls == [] then log else LogAfter(w, CallSpec(w, log, calls[0].0).0, calls[1..])
  }

  lemma {:induction false} WritesWaitForNothing(w: World, log: Log, calls: Calls, log': Log)
    requires Records(w, log, calls, log') && forall i :: 0 <= i < |calls| ==> calls[i].0.verb == POST
    ensures log' == LogAfter(w, log, calls)
    decreases |calls|
  {
    if calls != [] {
      assert calls[0].0.verb == POST;
      WritesWaitForNothing(w, CallSpec(w, log, calls[0].0).0, calls[1..], log');
    }
  }

  /** The container is polled from the moment its creation is answered, for as long as it takes. */
  ghost predicate PollsFrom(a: Account, log: Log, max: nat, p: Publication) {
    p.container.Ok? ==>
      var polls := PollSpec(a, p.container.value, LogAfter(a.w, log, p.created), max);
      p.rest.polls == polls.calls && p.rest.verdict == polls.verdict
  }

  class Publisher {
    const client: Client
    const a: Account
    const maxPolls: Positive

    constructor (client: Client, a: Account)
      requires a.w == client.w
      ensures this.client == client && this.a == a && maxPolls == 30
    {
      maxPolls := MAX_POLLS;
      this.client := client;
      this.a := a;
    }

    method PostForID(path: string, params: Values) returns (r: Result<string>, ghost call: (Request, Result<string>))
      requires a.w == client.w
      modifies client, params
      ensures call.0 == Post(a, path, old(params.entries)) && r == IDOf(a, call.1)
      ensures (client.log, call.1) == CallSpec(a.w, old(client.log), call.0)
      ensures Grows(old(client.calls), [call], client.calls)
    {
      var body := client.Call(POST, path, a.token, params);
      call := (Request(POST, path, params.entries), body);
      if body.Failed? { return body, call; }
      var id := a.readID(body.value);
      if id.None? { return Failed(Undecodable), call; }
      if id.value == "" { return Failed(MissingID), call; }
      return Ok(id.value), call;
    }

    method CreateCarouselItems(urls: seq<string>) returns (r: Result<seq<string>>, ghost calls: Calls)
      requires a.w == client.w
      modifies client
      ensures Items(a, urls, calls, r)
      ensures Extends(a.w, Trail(old(client.log), old(client.calls)), calls, Trail(client.log, client.calls))
    {
      var children := [];
      calls := [];
      for i := 0 to |urls|
        invariant |calls| == i && ItemsOf(a, urls, calls, children)
        invariant Extends(a.w, Trail(old(client.log), old(client.calls)), calls, Trail(client.log, client.calls))
      {
        ghost var trail := Trail(client.log, client.calls);
        var params := new Values(map["image_url" := urls[i], "is_carousel_item" := "true"]);
        var id, call := PostForID(a.user + "/media", params);
        ExtendsPush(a.w, Trail(old(client.log), old(client.calls)), calls, trail, call);
        ItemsPush(a, urls, calls, children, call, id);
        calls := calls + [call];
        if id.Failed? { return Failed(id.why), calls; }
        children := children + [id.value];
      }
      return Ok(children), calls;
    }

    method ContainerParams(req: IGRequest, children: seq<string>) returns (params: Values)
      ensures fresh(params) && params.entries == ParentParams(req, children)
    {
      params := new Values(map[]);
      if req.caption != "" {
        params.Set("caption", req.caption);
      }
      if req.mediaType == "STORIES" {
        params.Set("media_type", "STORIES");
        params.Del("caption");
        if req.videoURL != "" {
          params.Set("video_url", req.videoURL);
        } else {
          params.Set("image_url", req.imageURL);
        }
      } else if req.mediaType == "REELS" {
        params.Set("media_type", "REELS");
        params.Set("video_url", req.videoURL);
      } else if req.mediaType == "CAROUSEL" {
        params.Set("media_type", "CAROUSEL");
        var joined := JoinAll(children, ",");
        params.Set("children", joined);
      } else {
        params.Set("image_url", req.imageURL);
      }
    }

    method CreateIGContainer(req: IGRequest) returns (r: Result<string>, ghost calls: Calls)
      requires a.w == client.w
      modifies client
      ensures Containers(a, req, calls, r)
      ensures Extends(a.w, Trail(old(client.log), old(client.calls)), calls, Trail(client.log, client.calls))
    {
      var slides := if req.mediaType == "CAROUSEL" then req.children else [];
      var items, made := CreateCarouselItems(slides);
      if items.Failed? { return Failed(items.why), made; }
      var params := ContainerParams(req, items.value);
      ghost var call, trail := (ParentRequest(a, req, []), Failed(NotReady)), Trail(client.log, client.calls);
      r, call := PostForID(a.user + "/media", params);
      ExtendsPush(a.w, Trail(old(client.log), old(client.calls)), made, trail, call);
      calls := made + [call];
      assert calls[..|made|] == made;
    }

    method Poll(container: string) returns (s: Status, ghost call: (Request, Result<string>))
      requires a.w == client.w
      modifies client
      ensures call.0 == PollRequest(a, container) && s == StatusOf(a, call.1)
      ensures (client.log, call.1) == CallSpec(a.w, old(client.log), call.0)
      ensures Grows(old(client.calls), [call], client.calls)
    {
      var params := new Values(map["fields" := "status_code,status"]);
      var body := client.Call(GET, container, a.token, params);
      s, call := StatusOf(a, body), (PollRequest(a, container), body);
    }

    method WaitForIGContainer(container: string) returns (r: Result<()>, ghost calls: Calls)
      requires a.w == client.w
      modifies client
      ensures Polls(client.log, calls, r) == PollSpec(a, container, old(client.log), maxPolls)
      ensures Grows(old(client.calls), calls, client.calls)
    {
      var delay := PollDelay(a.w);
      calls := [];
      ghost var whole, left: nat := PollSpec(a, container, client.log, maxPolls), maxPolls;
      for attempt := 0 to maxPolls
        invariant left == maxPolls - attempt && Grows(old(client.calls), calls, client.calls)
        invariant whole == After(calls, PollSpec(a, container, client.log, left))
      {
        ghost var log, polled := client.log, calls;
        var status, call := Poll(container);
        calls := calls + [call];
        match status {
          case Finished => return Ok(()), calls;
          case Over(why) => return Failed(why), calls;
          case Pending =>
        }
        if attempt == maxPolls - 1 { return Failed(NotReady), calls; }
        var elapsed := client.Wait(delay);
        if !elapsed { return Failed(Cancelled), calls; }
        PollGoesOn(a, container, log, left, polled, call, client.log);
        left := left - 1;
      }
      return Failed(NotReady), calls;
    }

    method PublishContainer(container: string) returns (r: Result<string>, ghost done: Completion)
      requires a.w == client.w
      modifies client
      ensures done in Completions(a, container, maxPolls, Trail(old(client.log), old(client.calls)),
              Trail(client.log, client.calls))
      ensures done.answer == r
      ensures var polls := PollSpec(a, container, old(client.log), maxPolls);
              done.polls == polls.calls && done.verdict == polls.verdict
    {
      PollMeaning(a, container, client.log, maxPolls);
      PollRecords(a, container, client.log, maxPolls);
      var waited, polls := WaitForIGContainer(container);
      if waited.Failed? {
        assert polls + [] == polls;
        return Failed(waited.why), Completion(polls, waited, [], Failed(waited.why));
      }
      var params := new Values(map["creation_id" := container]);
      ghost var call, log := (PublishRequest(a, container), Failed(NotReady)), client.log;
      r, call := PostForID(a.user + "/media_publish", params);
      RecordsPush(a.w, old(client.log), polls, log, call);
      done := Completion(polls, waited, [call], r);
    }

    method IGPublish(req: IGRequest) returns (r: Result<string>, ghost p: Publication)
      requires a.w == client.w
      modifies client
      ensures p in Publications(a, req, maxPolls, Trail(old(client.log), old(client.calls)),
              Trail(client.log, client.calls)) && p.rest.answer == r
      ensures PollsFrom(a, old(client.log), maxPolls, p)
    {
      ghost var start := Trail(client.log, client.calls);
      var id, created := CreateIGContainer(req);
      ghost var middle := Trail(client.log, client.calls);
      if id.Failed? {
        p := Abandoned(a, req, maxPolls, start, middle, created, id);
        return id, p;
      }
      CreatedRequests(a, req, created, id);
      WritesWaitForNothing(a.w, start.log, created, middle.log);
      ghost var done;
      r, done := PublishContainer(id.value);
      p := Concluded(a, req, maxPolls, start, middle, Trail(client.log, client.calls), created, id, done);
    }
  }

  /** The publications that lead from one trail to the other. */
  ghost function Publications(a: Account, req: IGRequest, max: nat, before: Trail, after: Trail): iset<Publication> {
    iset p | Publishes(a, req, max, p) && Extends(a.w, before, Trace(p), after)
  }

  ghost function Completions(a: Account, container: string, max: nat, before: Trail, after: Trail): iset<Completion> {
    iset c | Completes(a, container, max, c) && Extends(a.w, before, c.polls + c.published, after)
  }

  lemma Abandoned(a: Account, req: IGRequest, max: nat, before: Trail, after: Trail, created: Calls,
      c: Result<string>) returns (p: Publication)
    requires Containers(a, req, created, c) && c.Failed? && Extends(a.w, before, created, after)
    ensures p in Publications(a, req, max, before, after) && p.container == c && p.rest.answer == c
  {
    p := Publication(created, c, Completion([], Failed(NotReady), [], c));
    assert Trace(p) == created;
  }

  lemma Concluded(a: Account, req: IGRequest, max: nat, before: Trail, middle: Trail, after: Trail,
                  created: Calls, c: Result<string>, done: Completion) returns (p: Publication)
    requires Containers(a, req, created, c) && c.Ok? && Extends(a.w, before, created, middle)
    requires done in Completions(a, c.value, max, middle, after)
    ensures p == Publication(created, c, done)
    ensures p in Publications(a, req, max, before, after) && p.rest.answer == done.answer
  {
    p := Publication(created, c, done);
    var rest := done.polls + done.published;
    ExtendsAppend(a.w, before, created, middle, rest, after);
    assert created + rest == Trace(p);
  }

  // ----- what the protocol guarantees, in every trace -----

  predicate IsPublish(a: Account, req: Request) { req.verb == POST && req.url == a.user + "/media_publish" }

  predicate IsCreation(a: Account, req: Request) { req.verb == POST && req.url == a.user + "/media" }

  predicate IsPoll(req: Request) { req.verb == GET }

  /** Call i publishes container c only when the parent's creation returned c, and the call before i is a poll
      of c that answered FINISHED. */
  ghost predicate PublishedAfter(a: Account, req: IGRequest, trace: Calls, i: nat) {
    var n := |Slides(req)|;
    && n + 1 < i == |trace| - 1
    && exists c :: c != "" && trace[i].0 == PublishRequest(a, c) && ParentCreated(a, req, trace, c)
                   && trace[i - 1].0 == PollRequest(a, c) && Reads(a, trace[i - 1].1, "FINISHED")
  }

  /** Call n created the parent c, and lists the ids that calls 0 to n - 1 returned for the n slides, in order. */
  ghost predicate ParentCreated(a: Account, req: IGRequest, trace: Calls, c: string) {
    var n := |Slides(req)|;
    && n < |trace| && IDOf(a, trace[n].1) == Ok(c)
    && exists ids :: ItemsOf(a, Slides(req), trace[..n], ids) && trace[n].0 == ParentRequest(a, req, ids)
  }

  lemma CreatedRequests(a: Account, req: IGRequest, calls: Calls, r: Result<string>)
    requires Containers(a, req, calls, r)
    ensures 1 <= |calls| <= |Slides(req)| + 1 && forall i :: 0 <= i < |calls| ==> IsCreation(a, calls[i].0)
    ensures r.Ok? ==> |calls| == |Slides(req)| + 1 && r.value != "" && ParentCreated(a, req, calls, r.value)
  {
  }

  lemma PollRequests(a: Account, container: string, max: nat, c: Completion)
    requires Completes(a, container, max, c)
    ensures forall i :: 0 <= i < |c.polls| ==> IsPoll(c.polls[i].0)
  {
  }

  lemma OnlyTheLastPublishes(a: Account, req: IGRequest, max: nat, p: Publication, i: nat)
    requires Publishes(a, req, max, p) && i < |Trace(p)| && IsPublish(a, Trace(p)[i].0)
    ensures p.container.Ok? && i >= |p.created| + |p.rest.polls|
  {
    CreatedRequests(a, req, p.created, p.container);
    if p.container.Ok? { PollRequests(a, p.container.value, max, p.rest); }
    assert |a.user + "/media"| < |a.user + "/media_publish"|;
  }

  lemma PublishIsSafe(a: Account, req: IGRequest, max: nat, p: Publication)
    requires Publishes(a, req, max, p)
    ensures forall i :: 0 <= i < |Trace(p)| && IsPublish(a, Trace(p)[i].0) ==> PublishedAfter(a, req, Trace(p), i)
  {
    forall i | 0 <= i < |Trace(p)| && IsPublish(a, Trace(p)[i].0) ensures PublishedAfter(a, req, Trace(p), i) {
      OnlyTheLastPublishes(a, req, max, p, i);
      ThatPublishIsSafe(a, req, max, p);
    }
  }

  lemma ThatPublishIsSafe(a: Account, req: IGRequest, max: nat, p: Publication)
    requires Publishes(a, req, max, p) && p.container.Ok? && p.rest.published != []
    ensures |p.rest.published| == 1 && PublishedAfter(a, req, Trace(p), |Trace(p)| - 1)
  {
    CreatedRequests(a, req, p.created, p.container);
    var trace, c, n := Trace(p), p.container.value, |Slides(req)|;
    assert trace[|trace| - 2] == p.rest.polls[|p.rest.polls| - 1];
    assert trace[n] == p.created[n] && trace[..n] == p.created[..n];
    assert trace[|trace| - 1] == p.rest.published[0];
    assert ParentCreated(a, req, trace, c);
  }

  /** What Meta's answers make of a container. When the first k polls find it still processed and their waits elapse,
      poll number k decides: FINISHED and it is published, by one call whose answer is the answer of the whole; any
      other end and it never is. */
  lemma FinishedIsPublished(a: Account, req: IGRequest, max: nat, log: Log, p: Publication, k: nat)
    requires Publishes(a, req, max, p) && PollsFrom(a, log, max, p) && p.container.Ok? && k < max
    requires Patient(a, p.container.value, LogAfter(a.w, log, p.created), k)
    ensures var before := BeforePoll(a, p.container.value, LogAfter(a.w, log, p.created), k);
            var answer := AnswerAt(a, p.container.value, before);
            && (Reads(a, answer, "FINISHED") ==>
                && |p.rest.polls| == k + 1 && |p.rest.published| == 1
                && p.rest.published[0].0 == PublishRequest(a, p.container.value)
                && p.rest.answer == IDOf(a, p.rest.published[0].1))
            && (Reads(a, answer, "ERROR") ==> p.rest.published == [] && p.rest.answer == Failed(MediaRejected))
            && (Reads(a, answer, "EXPIRED") ==> p.rest.published == [] && p.rest.answer == Failed(MediaExpired))
            && (Processing(a, answer) && k + 1 == max ==>
                p.rest.published == [] && p.rest.answer == Failed(NotReady))
            && (answer.Failed? ==> p.rest.published == [] && p.rest.answer == Failed(answer.why))
  {
    SettledAt(a, p.container.value, LogAfter(a.w, log, p.created), max, k);
  }

  /** Slides are created for a carousel and for nothing else: all of them, in order, before the parent. */
  lemma CreationsMeaning(a: Account, req: IGRequest, max: nat, p: Publication)
    requires Publishes(a, req, max, p) && p.container.Ok?
    ensures |p.created| == 1 + (if req.mediaType == "CAROUSEL" then |req.children| else 0)
    ensures forall i :: 0 <= i < |p.created| - 1 ==> p.created[i].0 == ItemRequest(a, req.children[i])
    ensures IDOf(a, p.created[|p.created| - 1].1) == p.container
  {
    CreatedRequests(a, req, p.created, p.container);
    var n := |Slides(req)|;
    assert forall i :: 0 <= i < n ==> p.created[..n][i] == p.created[i];
  }

  /** The parameters of the parent: its medium is named, and exactly the parameters of that medium are sent. A story is
      a video or an image and has no caption, a reel a video, a carousel its slides, anything else an image. */
  lemma MediaParameters(a: Account, req: IGRequest, ids: seq<string>)
    ensures var sent := ParentRequest(a, req, ids);
            var story, reel, carousel :=
              req.mediaType == "STORIES", req.mediaType == "REELS", req.mediaType == "CAROUSEL";
            && sent.verb == POST && sent.url == a.user + "/media"
            && Carries(sent.params, "media_type", story || reel || carousel, req.mediaType)
            && Carries(sent.params, "caption", req.caption != "" && !story, req.caption)
            && Carries(sent.params, "video_url", reel || (story && req.videoURL != ""), req.videoURL)
            && Carries(sent.params, "image_url", !reel && !carousel && !(story && req.videoURL != ""), req.imageURL)
            && Carries(sent.params, "children", carousel, Join(ids, ","))
            && sent.params.Keys <= PARAMETERS + {"access_token", "appsecret_proof"}
  {
    ParentFields(req, ids);
    CredentialsMeaning(a.w, ParentParams(req, ids), a.token);
  }

  const PARAMETERS := {"media_type", "caption", "video_url", "image_url", "children"}

  lemma ParentFields(req: IGRequest, ids: seq<string>)
    ensures var params := ParentParams(req, ids);
            var story, reel, carousel :=
              req.mediaType == "STORIES", req.mediaType == "REELS", req.mediaType == "CAROUSEL";
            && Carries(params, "media_type", story || reel || carousel, req.mediaType)
            && Carries(params, "caption", req.caption != "" && !story, req.caption)
            && Carries(params, "video_url", reel || (story && req.videoURL != ""), req.videoURL)
            && Carries(params, "image_url", !reel && !carousel && !(story && req.videoURL != ""), req.imageURL)
            && Carries(params, "children", carousel, Join(ids, ","))
            && params.Keys <= PARAMETERS
  {
  }

  /** The other calls: a slide is an image marked as one, a poll asks for the two status fields of the container, and
      the publish call names it. */
  lemma CallParameters(a: Account, imageURL: string, container: string)
    ensures var slide, poll, publish :=
              ItemRequest(a, imageURL), PollRequest(a, container), PublishRequest(a, container);
            && slide.verb == POST && slide.url == a.user + "/media"
            && Carries(slide.params, "image_url", true, imageURL)
            && Carries(slide.params, "is_carousel_item", true, "true")
            && poll.verb == GET && poll.url == container
            && Carries(poll.params, "fields", true, "status_code,status")
            && publish.verb == POST && publish.url == a.user + "/media_publish"
            && Carries(publish.params, "creation_id", true, container)
            && Carries(slide.params, "access_token", a.token != "", a.token)
            && Carries(poll.params, "access_token", a.token != "", a.token)
            && Carries(publish.params, "access_token", a.token != "", a.token)
  {
  }

  /** The identifier of a write: the one Meta returned, unless the body names none. */
  lemma IDMeaning(a: Account, body: Result<string>, id: string)
    ensures IDOf(a, body) == Ok(id) <==> body.Ok? && a.readID(body.value) == Some(id) && id != ""
    ensures body.Failed? ==> IDOf(a, body) == body
  {
  }

  /** Creations, then polls, then the publish call: at most n + 1, max and one of them, and an answer
      exactly when the publish call returned an id. */
  lemma PublicationBounds(a: Account, req: IGRequest, max: nat, p: Publication)
    requires Publishes(a, req, max, p)
    ensures 1 <= |p.created| <= |Slides(req)| + 1 && |p.rest.polls| <= max && |p.rest.published| <= 1
    ensures OfKinds(a, p)
    ensures p.rest.polls != [] ==> p.container.Ok? && ParentCreated(a, req, p.created, p.container.value)
    ensures p.rest.answer.Ok? <==> p.rest.published != [] && IDOf(a, p.rest.published[0].1).Ok?
    ensures p.rest.published != [] ==> p.rest.answer == IDOf(a, p.rest.published[0].1)
  {
    CreatedRequests(a, req, p.created, p.container);
    if p.container.Ok? {
      CompletionBounds(a, p.container.value, max, p.rest);
    }
  }

  ghost predicate OfKinds(a: Account, p: Publication) {
    && (forall i :: 0 <= i < |p.created| ==> IsCreation(a, p.created[i].0))
    && (forall i :: 0 <= i < |p.rest.polls| ==> IsPoll(p.rest.polls[i].0))
    && (forall i :: 0 <= i < |p.rest.published| ==> IsPublish(a, p.rest.published[i].0))
  }

  lemma CompletionBounds(a: Account, container: string, max: nat, c: Completion)
    requires Completes(a, container, max, c)
    ensures |c.polls| <= max && |c.published| <= 1
    ensures forall i :: 0 <= i < |c.polls| ==> IsPoll(c.polls[i].0)
    ensures forall i :: 0 <= i < |c.published| ==> IsPublish(a, c.published[i].0)
    ensures c.answer.Ok? <==> c.published != [] && IDOf(a, c.published[0].1).Ok?
    ensures c.published != [] ==> c.answer == IDOf(a, c.published[0].1)
  {
  }

  /** The whole publication in HTTP attempts: each of its calls is attempted once, or twice after a rate limit. */
  lemma PublicationAttempts(a: Account, req: IGRequest, max: nat, p: Publication, log: Log, log': Log)
    requires Publishes(a, req, max, p) && Records(a.w, log, Trace(p), log')
    ensures Attempts(log') <= Attempts(log) + 2 * |Trace(p)|
    ensures |Trace(p)| <= |Slides(req)| + max + 2
    ensures forall i :: 0 <= i < |Trace(p)| ==> MadeOnce(a.w, log, Trace(p)[i], log')
  {
    var trace := Trace(p);
    PublicationBounds(a, req, max, p);
    AttemptsOfCalls(a.w, log, trace, log');
    forall i | 0 <= i < |trace| ensures MadeOnce(a.w, log, trace[i], log') { EachMadeOnce(a.w, log, trace, log', i); }
  }

  /** The children parameter of a carousel's parent tells the ids of its slides, in order. */
  lemma ChildrenAreReadBack(a: Account, req: IGRequest, ids: seq<string>)
    requires req.mediaType == "CAROUSEL" && ids != [] && AllCommaFree(ids)
    ensures var params := ParentRequest(a, req, ids).params; "children" in params && Split(params["children"]) == ids
  {
    SplitJoin(ids);
  }
}
