/** The queue service: enqueue and move over the database and BullMQ's copy of the priorities. */
module QueueService {
  import opened Domain
  import opened Priority
  import opened QueueOrder
  import opened QueueEnqueue
  import opened QueueMove

  const ENQUEUE_CHUNK_SIZE := 50

  datatype EnqueueResponse =
    | Response(enqueued: seq<VideoId>, skipped: seq<(VideoId, SkipReason)>)
    | PrioritySpaceExhausted(enqueuedSoFar: nat)
    | BadStoredPriority

  function SkippedIds(skipped: seq<(VideoId, SkipReason)>): seq<VideoId> {
    if skipped == [] then [] else [skipped[0].0] + SkippedIds(skipped[1..])
  }

  lemma {:induction false} SkippedIdsOfBoth(a: seq<(VideoId, SkipReason)>, b: seq<(VideoId, SkipReason)>)
    ensures SkippedIds(a + b) == SkippedIds(a) + SkippedIds(b)
  {
    if a == [] {
      assert a + b == b;
    } else {
      SkippedIdsOfBoth(a[1..], b);
      assert (a + b)[1..] == a[1..] + b;
    }
  }

  function Dedupe(ids: seq<VideoId>): seq<VideoId> {
    if ids == [] then []
    else
      var init := Dedupe(ids[..|ids| - 1]);
      var last := ids[|ids| - 1];
      if last in init then init else init + [last]
  }

  /** Explicit ids first, then the filter's, each id once. */
  method ResolveTargets(videoIds: seq<VideoId>, filtered: seq<VideoId>) returns (ordered: seq<VideoId>)
    ensures ordered == Dedupe(videoIds + filtered)
    ensures NoDuplicates(ordered)
    ensures forall v :: v in ordered <==> v in videoIds || v in filtered
  {
    ordered := [];
    var all := videoIds + filtered;
    var seen: set<VideoId> := {};
    for k := 0 to |all|
      invariant ordered == Dedupe(all[..k])
      invariant NoDuplicates(ordered)
      invariant forall v :: v in seen <==> v in ordered
      invariant forall v :: v in ordered <==> v in all[..k]
    {
      assert all[..k + 1][..k] == all[..k] && all[..k + 1] == all[..k] + [all[k]];
      if all[k] !in seen {
        seen := seen + {all[k]};
        ordered := ordered + [all[k]];
      }
    }
    assert all[..|all|] == all;
  }

  // --------------------------------------------------------- the queue's shape --

  /** The order is front, then the rows of this request, then the rows with no priority. */
  ghost predicate QueueIs(t: Table, front: seq<JobId>, rows: seq<JobId>, back: seq<JobId>) {
    && IsQueueOrder(t, front + rows + back)
    && (forall i | i in front + rows :: i in t && t[i].priority.Some?)
    && (forall i | i in back :: i in t && t[i].priority.None?)
  }

  lemma SplitIsShape(t: Table, front: seq<JobId>, back: seq<JobId>, max: Option<int>)
    requires Split(t, front, back, max)
    ensures QueueIs(t, front, [], back)
  {
    assert front + [] + back == front + back && front + [] == front;
  }

  lemma QueueIsAtStart(t: Table)
    ensures var o := OrderOf(t); var n := PlacedCount(t, o); QueueIs(t, o[..n], [], o[n..])
  {
    var o := OrderOf(t);
    var n := PlacedCount(t, o);
    OrderSplits(t, o);
    SplitIsShape(t, o[..n], o[n..], MaxPriority(t, o));
  }

  lemma QueueSplits(t: Table, front: seq<JobId>, rows: seq<JobId>, back: seq<JobId>)
    requires QueueIs(t, front, rows, back)
    ensures Split(t, front + rows, back, MaxPriority(t, OrderOf(t)))
  {
    var o := OrderOf(t);
    OrderIsUnique(t, o, front + rows + back);
    MaxPriorityIsMax(t, o);
    assert forall k | 0 <= k < |front + rows| :: (front + rows)[k] in front + rows;
    forall k | 0 <= k < |front + rows| ensures (front + rows)[k] in (set j | j in o) {
      assert o[k] == (front + rows)[k];
    }
  }

  lemma AcceptedAreReady(t: Table, first: JobId, verdicts: seq<Verdict>, i: JobId)
    requires RowsReady(t, first, verdicts) && i in AcceptedRows(verdicts)
    ensures i in t && t[i].priority.Some?
  {
    AcceptedRowOf(verdicts, i);
  }

  /** The rows that were there keep their priorities, so the split extends. */
  lemma ShapeExtends(t: Table, t': Table, front: seq<JobId>, rows: seq<JobId>, more: seq<JobId>, back: seq<JobId>)
    requires QueueIs(t, front, rows, back) && IsQueueOrder(t', front + rows + more + back)
    requires forall i | i in t :: i in t' && t'[i] == t[i]
    requires forall i | i in more :: i in t' && t'[i].priority.Some?
    ensures QueueIs(t', front, rows + more, back)
  {
    assert front + rows + more + back == front + (rows + more) + back;
    assert forall i | i in front + (rows + more) :: i in front + rows || i in more;
  }

  lemma ChunkExtends(db: Db, front: seq<JobId>, rows: seq<JobId>, back: seq<JobId>, max: Option<int>,
                     chunk: seq<VideoId>, raced: set<VideoId>)
    requires FreshIds(db) && QueueIs(db.jobs, front, rows, back) && Split(db.jobs, front + rows, back, max)
    requires Chunk(db, max, chunk, raced).Committed?
    ensures var r := Chunk(db, max, chunk, raced);
      QueueIs(r.db.jobs, front, rows + AcceptedRows(r.verdicts), back)
  {
    var r := Chunk(db, max, chunk, raced);
    ChunkSplits(db, front + rows, back, max, chunk, raced);
    ChunkGrows(db, max, chunk, raced);
    ChunkJudgesEach(db, max, chunk, raced);
    forall i | i in AcceptedRows(r.verdicts) ensures i in r.db.jobs && r.db.jobs[i].priority.Some? {
      AcceptedAreReady(r.db.jobs, db.nextId, r.verdicts, i);
    }
    ShapeExtends(db.jobs, r.db.jobs, front, rows, AcceptedRows(r.verdicts), back);
  }

  /** A rejected add takes its row out of the queue and disturbs nobody else. */
  lemma FailedAddDrops(t: Table, front: seq<JobId>, rows: seq<JobId>, r: JobId, rest: seq<JobId>, back: seq<JobId>)
    requires QueueIs(t, front, rows + [r] + rest, back) && r in t
    ensures QueueIs(t[r := t[r].(status := FAILED)], front, rows + rest, back)
  {
    var o := front + (rows + [r] + rest) + back;
    var k := |front + rows|;
    var t' := t[r := t[r].(status := FAILED)];
    assert o[k] == r && Cut(o, k) == front + (rows + rest) + back;
    OrderHasNoDuplicates(t, o);
    DeletedAt(t, o, k);
    assert t' - {r} == t - {r};
    InactiveIgnored(t', Cut(o, k), r);
    forall i | i in front + (rows + rest) ensures i in t' && t'[i].priority.Some? {
      assert i in front + (rows + [r] + rest);
    }
    forall i | i in back ensures i in t' && t'[i].priority.None? {
      assert r in front + (rows + [r] + rest) by { assert (front + (rows + [r] + rest))[k] == r; }
    }
  }

  // ------------------------------------------------------------ adding executions --

  /** A rejected add fails the row and gives the video back, each under its guard. */
  function Compensated(db: Db, r: JobId, v: VideoId): Db {
    db.(jobs := if r in db.jobs && db.jobs[r].status == QUEUED
                then db.jobs[r := db.jobs[r].(status := FAILED)] else db.jobs,
        videos := if v in db.videos && db.videos[v].copy == Queued
                  then db.videos[v := db.videos[v].(copy := Candidate)] else db.videos)
  }

  /** The adds for the accepted rows, in order; rejected holds the videos whose add fails. */
  function AddsDone(db: Db, verdicts: seq<Verdict>, rejected: set<VideoId>): Db
    decreases |verdicts|
  {
    if verdicts == [] then db
    else
      var x := verdicts[0];
      AddsDone(if x.Accepted? && x.video in rejected then Compensated(db, x.row, x.video) else db,
               verdicts[1..], rejected)
  }

  datatype Fate = Enqueued | Bounced | TurnedAway

  function FateOf(verdict: Verdict, rejected: set<VideoId>): Fate {
    if verdict.Skipped? then TurnedAway else if verdict.video in rejected then Bounced else Enqueued
  }

  /** The verdicts with the given fate, in request order. */
  function WithFate(verdicts: seq<Verdict>, rejected: set<VideoId>, fate: Fate): seq<Verdict> {
    if verdicts == [] then []
    else (if FateOf(verdicts[0], rejected) == fate then [verdicts[0]] else []) + WithFate(verdicts[1..], rejected, fate)
  }

  function VideosOf(verdicts: seq<Verdict>): seq<VideoId> {
    if verdicts == [] then [] else [verdicts[0].video] + VideosOf(verdicts[1..])
  }

  lemma VideosFrom(verdicts: seq<Verdict>, rejected: set<VideoId>, fate: Fate, k: nat)
    requires k < |verdicts|
    ensures VideosOf(WithFate(verdicts[k..], rejected, fate)) ==
            (if FateOf(verdicts[k], rejected) == fate then [verdicts[k].video] else []) +
            VideosOf(WithFate(verdicts[k + 1..], rejected, fate))
  {
    assert verdicts[k..] == [verdicts[k]] + verdicts[k + 1..];
    VideosAfter(verdicts[k], verdicts[k + 1..], rejected, fate);
  }

  lemma SeqShift(a: seq<VideoId>, x: VideoId, b: seq<VideoId>)
    ensures a + ([x] + b) == (a + [x]) + b && a + ([] + b) == a + b
  {
    assert [] + b == b;
  }

  lemma AddsFrom(db: Db, verdicts: seq<Verdict>, rejected: set<VideoId>, k: nat)
    requires k < |verdicts| && RowsReady(db.jobs, 0, verdicts[k..])
    ensures var x := verdicts[k];
      var db' := if FateOf(x, rejected) == Bounced then Compensated(db, x.row, x.video) else db;
      && AddsDone(db, verdicts[k..], rejected) == AddsDone(db', verdicts[k + 1..], rejected)
      && RowsReady(db'.jobs, 0, verdicts[k + 1..])
      && (x.Accepted? ==> Fresh(db.jobs, x.row, x.video))
  {
    var x, rest := verdicts[k], verdicts[k + 1..];
    assert verdicts[k..] == [x] + rest;
    assert verdicts[k..][1..] == rest;
    ReadyTail(db.jobs, x, rest, 0);
    if FateOf(x, rejected) == Bounced { ReadyAfterBounce(db, x, rest, 0); }
    assert verdicts[k..][0] == x;
  }

  lemma KeptAfter(x: Verdict, rest: seq<Verdict>, rejected: set<VideoId>)
    ensures AcceptedRows(WithFate([x] + rest, rejected, Enqueued)) ==
            (if FateOf(x, rejected) == Enqueued then [x.row] else []) + AcceptedRows(WithFate(rest, rejected, Enqueued))
  {
    assert ([x] + rest)[1..] == rest;
    var w := WithFate(rest, rejected, Enqueued);
    assert [] + w == w && ([x] + w)[1..] == w;
  }

  lemma ReadyAfterBounce(db: Db, x: Verdict, rest: seq<Verdict>, first: JobId)
    requires x.Accepted? && RowsReady(db.jobs, first, [x] + rest)
    ensures RowsReady(Compensated(db, x.row, x.video).jobs, first, rest)
    ensures x.row in db.jobs &&
        Compensated(db, x.row, x.video).jobs == db.jobs[x.row := db.jobs[x.row].(status := FAILED)]
  {
    assert ([x] + rest)[0] == x && forall k | 0 <= k < |rest| :: ([x] + rest)[k + 1] == rest[k];
  }

  lemma ReadyTail(t: Table, x: Verdict, rest: seq<Verdict>, first: JobId)
    requires RowsReady(t, first, [x] + rest)
    ensures RowsReady(t, first, rest)
  {
    assert forall k | 0 <= k < |rest| :: ([x] + rest)[k + 1] == rest[k];
  }

  lemma BounceKeepsShape(db: Db, x: Verdict, rest: seq<Verdict>, first: JobId,
                         front: seq<JobId>, before: seq<JobId>, back: seq<JobId>)
    requires x.Accepted? && RowsReady(db.jobs, first, [x] + rest)
    requires QueueIs(db.jobs, front, before + AcceptedRows([x] + rest), back)
    ensures RowsReady(Compensated(db, x.row, x.video).jobs, first, rest)
    ensures QueueIs(Compensated(db, x.row, x.video).jobs, front, before + AcceptedRows(rest), back)
  {
    AcceptedAfter(x, rest);
    ReadyAfterBounce(db, x, rest, first);
    assert before + ([x.row] + AcceptedRows(rest)) == before + [x.row] + AcceptedRows(rest);
    FailedAddDrops(db.jobs, front, before, x.row, AcceptedRows(rest), back);
  }

  lemma AddKeepsShape(t: Table, x: Verdict, rest: seq<Verdict>, front: seq<JobId>, before: seq<JobId>, back: seq<JobId>)
    requires x.Accepted? && QueueIs(t, front, before + AcceptedRows([x] + rest), back)
    ensures QueueIs(t, front, (before + [x.row]) + AcceptedRows(rest), back)
  {
    AcceptedAfter(x, rest);
    assert before + ([x.row] + AcceptedRows(rest)) == (before + [x.row]) + AcceptedRows(rest);
  }

  /** What the adds leave: rejected rows drop out of the queue, the others keep their place. */
  lemma {:induction false} AddsKeepShape(db: Db, verdicts: seq<Verdict>, rejected: set<VideoId>, first: JobId,
                                         front: seq<JobId>, before: seq<JobId>, back: seq<JobId>)
    requires RowsReady(db.jobs, first, verdicts)
    requires QueueIs(db.jobs, front, before + AcceptedRows(verdicts), back)
    ensures QueueIs(AddsDone(db, verdicts, rejected).jobs, front,
                    before + AcceptedRows(WithFate(verdicts, rejected, Enqueued)), back)
    decreases |verdicts|
  {
    if verdicts != [] {
      var x, rest := verdicts[0], verdicts[1..];
      var kept := AcceptedRows(WithFate(rest, rejected, Enqueued));
      assert verdicts == [x] + rest;
      ReadyTail(db.jobs, x, rest, first);
      KeptAfter(x, rest, rejected);
      match FateOf(x, rejected)
      case Bounced =>
        BounceKeepsShape(db, x, rest, first, front, before, back);
        AddsKeepShape(Compensated(db, x.row, x.video), rest, rejected, first, front, before, back);
        assert [] + kept == kept;
      case Enqueued =>
        AddKeepsShape(db.jobs, x, rest, front, before, back);
        AddsKeepShape(db, rest, rejected, first, front, before + [x.row], back);
        assert before + [x.row] + kept == before + ([x.row] + kept);
      case TurnedAway =>
        AcceptedAfter(x, rest);
        assert [] + AcceptedRows(rest) == AcceptedRows(rest) && [] + kept == kept;
        AddsKeepShape(db, rest, rejected, first, front, before, back);
    }
  }

  /** The adds touch the rows of this request only. */
  lemma {:induction false} AddsTouchOwnRows(db: Db, verdicts: seq<Verdict>, rejected: set<VideoId>, first: JobId)
    requires RowsReady(db.jobs, first, verdicts)
    ensures var db' := AddsDone(db, verdicts, rejected);
      && db'.nextId == db.nextId && db'.jobs.Keys == db.jobs.Keys
      && (forall i | i in db.jobs && i < first :: db'.jobs[i] == db.jobs[i])
    decreases |verdicts|
  {
    if verdicts != [] {
      var x := verdicts[0];
      AddsTouchOwnRows(if x.Accepted? && x.video in rejected then Compensated(db, x.row, x.video) else db,
                       verdicts[1..], rejected, first);
    }
  }

  function Refusals(verdicts: seq<Verdict>): seq<(VideoId, SkipReason)> {
    if verdicts == [] then []
    else (if verdicts[0].Skipped? then [(verdicts[0].video, verdicts[0].reason)] else []) + Refusals(verdicts[1..])
  }

  function Bounces(failed: seq<VideoId>): (skipped: seq<(VideoId, SkipReason)>)
    ensures SkippedIds(skipped) == failed
  {
    if failed == [] then [] else [(failed[0], enqueue_failed)] + Bounces(failed[1..])
  }

  lemma FateAfter(x: Verdict, rest: seq<Verdict>, rejected: set<VideoId>, fate: Fate)
    ensures WithFate([x] + rest, rejected, fate) ==
            (if FateOf(x, rejected) == fate then [x] else []) + WithFate(rest, rejected, fate)
  {
    assert ([x] + rest)[1..] == rest;
  }

  lemma {:induction false} FateOfBoth(a: seq<Verdict>, b: seq<Verdict>, rejected: set<VideoId>, fate: Fate)
    ensures WithFate(a + b, rejected, fate) == WithFate(a, rejected, fate) + WithFate(b, rejected, fate)
  {
    if a == [] {
      assert a + b == b;
    } else {
      FateOfBoth(a[1..], b, rejected, fate);
      assert a + b == [a[0]] + (a[1..] + b) && a == [a[0]] + a[1..];
      FateAfter(a[0], a[1..] + b, rejected, fate);
      FateAfter(a[0], a[1..], rejected, fate);
    }
  }

  /** The rows of the videos that were enqueued are still as created. */
  ghost predicate EnqueuedAreFresh(t: Table, next: JobId, verdicts: seq<Verdict>, rejected: set<VideoId>) {
    forall k | 0 <= k < |verdicts| && FateOf(verdicts[k], rejected) == Enqueued ::
      verdicts[k].row < next && Fresh(t, verdicts[k].row, verdicts[k].video)
  }

  lemma RefusedAfter(x: Verdict, rest: seq<Verdict>)
    ensures SkippedIds(Refusals([x] + rest)) == (if x.Skipped? then [x.video] else []) + SkippedIds(Refusals(rest))
  {
    assert ([x] + rest)[1..] == rest;
    var w := Refusals(rest);
    if x.Skipped? {
      assert ([(x.video, x.reason)] + w)[1..] == w;
    } else {
      assert [] + w == w && [] + SkippedIds(w) == SkippedIds(w);
    }
  }

  lemma TallyOne(x: VideoId, fate: Fate, a: seq<VideoId>, b: seq<VideoId>, c: seq<VideoId>, d: seq<VideoId>)
    requires multiset(a) + multiset(b) + multiset(c) == multiset(d)
    ensures multiset((if fate == Enqueued then [x] else []) + a) +
            multiset((if fate == Bounced then [x] else []) + b) +
            multiset((if fate == TurnedAway then [x] else []) + c) == multiset([x] + d)
  {
    assert [] + a == a && [] + b == b && [] + c == c;
  }

  /** Every verdict has exactly one fate: no target is dropped or reported twice. */
  lemma {:induction false} VerdictsTally(verdicts: seq<Verdict>, rejected: set<VideoId>)
    ensures multiset(VideosOf(WithFate(verdicts, rejected, Enqueued))) +
            multiset(VideosOf(WithFate(verdicts, rejected, Bounced))) +
            multiset(SkippedIds(Refusals(verdicts))) == multiset(VideosOf(verdicts))
  {
    if verdicts != [] {
      var x, rest := verdicts[0], verdicts[1..];
      assert verdicts == [x] + rest;
      var a, b, c := VideosOf(WithFate(rest, rejected, Enqueued)), VideosOf(WithFate(rest, rejected, Bounced)),
                     SkippedIds(Refusals(rest));
      VerdictsTally(rest, rejected);
      TallyOne(x.video, FateOf(x, rejected), a, b, c, VideosOf(rest));
      VideosAfter(x, rest, rejected, Enqueued);
      VideosAfter(x, rest, rejected, Bounced);
      RefusedAfter(x, rest);
      VideosOfAfter(x, rest);
    }
  }

  lemma VideosAfter(x: Verdict, rest: seq<Verdict>, rejected: set<VideoId>, fate: Fate)
    ensures VideosOf(WithFate([x] + rest, rejected, fate)) ==
            (if FateOf(x, rejected) == fate then [x.video] else []) + VideosOf(WithFate(rest, rejected, fate))
  {
    assert ([x] + rest)[1..] == rest;
    var w := WithFate(rest, rejected, fate);
    assert [] + w == w && ([x] + w)[1..] == w;
  }

  lemma {:induction false} AcceptedOfBoth(a: seq<Verdict>, b: seq<Verdict>)
    ensures AcceptedRows(a + b) == AcceptedRows(a) + AcceptedRows(b)
  {
    if a == [] {
      assert a + b == b;
    } else {
      AcceptedOfBoth(a[1..], b);
      assert a + b == [a[0]] + (a[1..] + b) && a == [a[0]] + a[1..];
      AcceptedAfter(a[0], a[1..] + b);
      AcceptedAfter(a[0], a[1..]);
    }
  }

  /** A row whose add succeeded is not touched by the others' compensation. */
  lemma {:induction false} AddsKeepEnqueued(db: Db, verdicts: seq<Verdict>, rejected: set<VideoId>, first: JobId,
          k: nat)
    requires RowsReady(db.jobs, first, verdicts) && k < |verdicts| && FateOf(verdicts[k], rejected) == Enqueued
    ensures var t := AddsDone(db, verdicts, rejected).jobs;
      verdicts[k].row in db.jobs && verdicts[k].row in t && t[verdicts[k].row] == db.jobs[verdicts[k].row]
    decreases |verdicts|
  {
    var x := verdicts[0];
    var db' := if x.Accepted? && x.video in rejected then Compensated(db, x.row, x.video) else db;
    if k > 0 {
      AddsKeepEnqueued(db', verdicts[1..], rejected, first, k - 1);
    } else {
      AddsTouchOwnRows(db', verdicts[1..], rejected, x.row + 1);
    }
  }

  /** One chunk, transaction and adds, extends the request's part of the queue. */
  lemma ChunkKeepsRequest(db: Db, chunk: seq<VideoId>, raced: set<VideoId>, rejected: set<VideoId>,
                          front: seq<JobId>, back: seq<JobId>, done: seq<Verdict>)
    requires FreshIds(db) && EnqueueTx(db, chunk, raced).Committed?
    requires QueueIs(db.jobs, front, AcceptedRows(WithFate(done, rejected, Enqueued)), back)
    ensures var r := EnqueueTx(db, chunk, raced);
      RowsReady(r.db.jobs, 0, r.verdicts) && RowsReady(r.db.jobs, db.nextId, r.verdicts) && Grows(db, r.db)
    ensures var r := EnqueueTx(db, chunk, raced);
      QueueIs(AddsDone(r.db, r.verdicts, rejected).jobs, front,
              AcceptedRows(WithFate(done + r.verdicts, rejected, Enqueued)), back)
  {
    var rows := AcceptedRows(WithFate(done, rejected, Enqueued));
    var max := MaxPriority(db.jobs, OrderOf(db.jobs));
    var r := EnqueueTx(db, chunk, raced);
    QueueSplits(db.jobs, front, rows, back);
    ChunkExtends(db, front, rows, back, max, chunk, raced);
    ChunkJudgesEach(db, max, chunk, raced);
    ChunkGrows(db, max, chunk, raced);
    AddsKeepShape(r.db, r.verdicts, rejected, db.nextId, front, rows, back);
    FateOfBoth(done, r.verdicts, rejected, Enqueued);
    AcceptedOfBoth(WithFate(done, rejected, Enqueued), WithFate(r.verdicts, rejected, Enqueued));
  }

  lemma ChunkKeepsRows(db: Db, r: ChunkResult, rejected: set<VideoId>, done: seq<Verdict>)
    requires r.Committed? && Grows(db, r.db) && RowsReady(r.db.jobs, db.nextId, r.verdicts)
    requires EnqueuedAreFresh(db.jobs, db.nextId, done, rejected)
    ensures var db' := AddsDone(r.db, r.verdicts, rejected);
      && FreshIds(db') && db'.nextId >= db.nextId
      && EnqueuedAreFresh(db'.jobs, db'.nextId, done + r.verdicts, rejected)
      && (forall i | i in db.jobs && i < db.nextId :: i in db'.jobs && db'.jobs[i] == db.jobs[i])
  {
    AddsTouchOwnRows(r.db, r.verdicts, rejected, db.nextId);
    var db', all := AddsDone(r.db, r.verdicts, rejected), done + r.verdicts;
    forall k | 0 <= k < |all| && FateOf(all[k], rejected) == Enqueued
      ensures all[k].row < db'.nextId && Fresh(db'.jobs, all[k].row, all[k].video)
    {
      if k < |done| {
        assert all[k] == done[k];
      } else {
        assert all[k] == r.verdicts[k - |done|];
        AddsKeepEnqueued(r.db, r.verdicts, rejected, db.nextId, k - |done|);
      }
    }
  }

  lemma VideosOfAfter(x: Verdict, rest: seq<Verdict>)
    ensures VideosOf([x] + rest) == [x.video] + VideosOf(rest)
  {
    assert ([x] + rest)[1..] == rest;
  }

  lemma {:induction false} VideosOfBoth(a: seq<Verdict>, b: seq<Verdict>)
    ensures VideosOf(a + b) == VideosOf(a) + VideosOf(b)
  {
    if a == [] {
      assert a + b == b;
    } else {
      VideosOfBoth(a[1..], b);
      assert a + b == [a[0]] + (a[1..] + b) && a == [a[0]] + a[1..];
      VideosOfAfter(a[0], a[1..] + b);
      VideosOfAfter(a[0], a[1..]);
    }
  }

  lemma {:induction false} VideosOfAre(verdicts: seq<Verdict>, ids: seq<VideoId>)
    requires |verdicts| == |ids| && forall k | 0 <= k < |ids| :: verdicts[k].video == ids[k]
    ensures VideosOf(verdicts) == ids
  {
    if ids != [] {
      assert forall k | 0 <= k < |ids[1..]| :: verdicts[1..][k].video == ids[1..][k];
      VideosOfAre(verdicts[1..], ids[1..]);
      assert ids == [ids[0]] + ids[1..];
    }
  }

  lemma TallyChunk(e: seq<VideoId>, s: seq<VideoId>, done: seq<VideoId>,
                   a: seq<VideoId>, f: seq<VideoId>, r: seq<VideoId>, more: seq<VideoId>)
    requires multiset(e) + multiset(s) == multiset(done)
    requires multiset(a) + multiset(f) + multiset(r) == multiset(more)
    ensures multiset(e + a) + multiset(s + r + f) == multiset(done + more)
  {}

  /** Since db0 the request's rows were put between front and back, and nothing else changed. */
  ghost predicate Extended(db0: Db, db: Db, front: seq<JobId>, back: seq<JobId>, verdicts: seq<Verdict>,
          rejected: set<VideoId>) {
    && FreshIds(db) && db.nextId >= db0.nextId
    && QueueIs(db.jobs, front, AcceptedRows(WithFate(verdicts, rejected, Enqueued)), back)
    && EnqueuedAreFresh(db.jobs, db.nextId, verdicts, rejected)
    && (forall i | i in db0.jobs :: i in db.jobs && db.jobs[i] == db0.jobs[i])
  }

  /** The response accounts for the targets reached so far. */
  ghost predicate Reported(targets: seq<VideoId>, reached: nat, verdicts: seq<Verdict>, rejected: set<VideoId>,
                           enqueued: seq<VideoId>, skipped: seq<(VideoId, SkipReason)>) {
    && reached <= |targets| && VideosOf(verdicts) == targets[..reached] && |verdicts| == reached
    && enqueued == VideosOf(WithFate(verdicts, rejected, Enqueued))
    && multiset(enqueued) + multiset(SkippedIds(skipped)) == multiset(targets[..reached])
  }

  /** Reporting a chunk's verdicts keeps the account. */
  lemma ChunkTallies(targets: seq<VideoId>, offset: nat, end: nat, done: seq<Verdict>, more: seq<Verdict>,
                     rejected: set<VideoId>, enqueued: seq<VideoId>, skipped: seq<(VideoId, SkipReason)>)
    requires Reported(targets, offset, done, rejected, enqueued, skipped) && offset <= end <= |targets|
    requires |more| == end - offset && forall k | 0 <= k < |more| :: more[k].video == targets[offset..end][k]
    ensures Reported(targets, end, done + more, rejected,
                     enqueued + VideosOf(WithFate(more, rejected, Enqueued)),
                     skipped + Refusals(more) + Bounces(VideosOf(WithFate(more, rejected, Bounced))))
  {
    var added, failed := VideosOf(WithFate(more, rejected, Enqueued)), VideosOf(WithFate(more, rejected, Bounced));
    var ids := targets[offset..end];
    assert targets[..end] == targets[..offset] + ids;
    VideosOfAre(more, ids);
    VideosOfBoth(done, more);
    FateOfBoth(done, more, rejected, Enqueued);
    VideosOfBoth(WithFate(done, rejected, Enqueued), WithFate(more, rejected, Enqueued));
    VerdictsTally(more, rejected);
    SkippedIdsOfBoth(skipped, Refusals(more));
    SkippedIdsOfBoth(skipped + Refusals(more), Bounces(failed));
    TallyChunk(enqueued, SkippedIds(skipped), targets[..offset], added, failed, SkippedIds(Refusals(more)), ids);
  }

  /** The first k rows of the order are on the grid. */
  ghost predicate PartlyRespaced(t: Table, tx: Table, o: seq<JobId>, k: nat) {
    && k <= |o| && tx.Keys == t.Keys
    && (forall j | 0 <= j < |o| :: o[j] in t &&
          tx[o[j]] == if j < k then t[o[j]].(priority := Some(PRIORITY_START + j * PRIORITY_GAP)) else t[o[j]])
    && (forall i | i in t && i !in o :: tx[i] == t[i])
  }

  lemma PartlyRespacedNext(t: Table, tx: Table, o: seq<JobId>, k: nat)
    requires IsQueueOrder(t, o) && PartlyRespaced(t, tx, o, k) && k < |o|
    ensures o[k] in tx && tx[o[k]] == t[o[k]]
    ensures PartlyRespaced(t, tx[o[k] := t[o[k]].(priority := Some(PRIORITY_START + k * PRIORITY_GAP))], o, k + 1)
  {
    OrderHasNoDuplicates(t, o);
  }

  lemma PartlyRespacedAll(t: Table, tx: Table, o: seq<JobId>)
    requires IsQueueOrder(t, o) && PartlyRespaced(t, tx, o, |o|)
    ensures tx == Respaced(t, o)
  {
    RespacedRows(t, o);
    forall i | i in t ensures tx[i] == Respaced(t, o)[i] {
      if i in o { var j :| 0 <= j < |o| && o[j] == i; }
    }
  }

  lemma OrderIsThere(t: Table, o: seq<JobId>)
    requires IsQueueOrder(t, o)
    ensures PartlyRespaced(t, t, o, 0)
  {
    assert forall j | 0 <= j < |o| :: Active(t, o[j]);
  }

  class Queue {
    var db: Db                       // the committed tables
    var execs: map<JobId, int>       // BullMQ's executions and their priorities

    constructor (db: Db, execs: map<JobId, int>)
      ensures this.db == db && this.execs == execs
    {
      this.db, this.execs := db, execs;
    }

    // --------------------------------------------------------------- enqueue --

    /** One transaction under the advisory lock. */
    method EnqueueChunk(chunk: seq<VideoId>, raced: set<VideoId>) returns (r: ChunkResult)
      modifies `db
      ensures r == EnqueueTx(old(db), chunk, raced)
      ensures db == if r.Committed? then r.db else old(db)
    {
      var tx, verdicts := db, [];
      var currentMax := MaxPriority(tx.jobs, OrderOf(tx.jobs));
      for k := 0 to |chunk|
        invariant db == old(db)
        invariant EnqueueTx(old(db), chunk, raced) == Prepend(verdicts, Chunk(tx, currentMax, chunk[k..], raced))
      {
        var v := chunk[k];
        ghost var rest := chunk[k..];
        assert rest[0] == v && rest[1..] == chunk[k + 1..];
        ghost var sofar := verdicts;
        var no := Ineligible(tx, v);
        if no.Some? {
          verdicts := verdicts + [Skipped(v, no.value)];
        } else {
          var slot := TailPriority(currentMax);
          if slot.Exhausted? { return TailExhausted; }
          if slot.OutOfRange? { return TailOutOfRange; }
          if HasDownload(tx.jobs, v) {
            verdicts := verdicts + [Skipped(v, already_queued)];
          } else if v in raced {
            verdicts := verdicts + [Skipped(v, not_eligible)];
          } else {
            verdicts := verdicts + [Accepted(v, tx.nextId, slot.at)];
            tx, currentMax := Admit(tx, v, slot.at), Some(slot.at);
          }
        }
        PrependTwice(sofar, verdicts[|sofar|], Chunk(tx, currentMax, chunk[k + 1..], raced));
      }
      r := Committed(tx, verdicts);
      db := tx;
    }

    /** BullMQ's add, with the priority read again at the last moment. */
    method AddExecution(r: JobId, v: VideoId, priority: int, rejected: bool) returns (added: bool)
      modifies this
      ensures var p := if r in old(db).jobs && old(db).jobs[r].priority.Some?
                       then old(db).jobs[r].priority.value else priority;
        && (added <==> !rejected && 1 <= p <= BULLMQ_PRIORITY_MAX)
        && execs == if added && r !in old(execs) then old(execs)[r := p] else old(execs)
      ensures db == if added then old(db) else Compensated(old(db), r, v)
    {
      var reread := if r in db.jobs then db.jobs[r].priority else None;
      var p := if reread.Some? then reread.value else priority;
      if !rejected && 1 <= p <= BULLMQ_PRIORITY_MAX {
        if r !in execs { execs := execs[r := p]; }
        return true;
      }
      if r in db.jobs && db.jobs[r].status == QUEUED {
        db := db.(jobs := db.jobs[r := db.jobs[r].(status := FAILED)]);
      }
      if v in db.videos && db.videos[v].copy == Queued {
        db := db.(videos := db.videos[v := db.videos[v].(copy := Candidate)]);
      }
      return false;
    }

    /** After the commit: one add per accepted row, in order. */
    method AddAll(verdicts: seq<Verdict>, rejected: set<VideoId>)
      returns (enqueued: seq<VideoId>, failed: seq<VideoId>)
      requires RowsReady(db.jobs, 0, verdicts)
      modifies this
      ensures db == AddsDone(old(db), verdicts, rejected)
      ensures enqueued == VideosOf(WithFate(verdicts, rejected, Enqueued))
      ensures failed == VideosOf(WithFate(verdicts, rejected, Bounced))
    {
      enqueued, failed := [], [];
      assert verdicts[0..] == verdicts;
      for k := 0 to |verdicts|
        invariant RowsReady(db.jobs, 0, verdicts[k..])
        invariant AddsDone(db, verdicts[k..], rejected) == AddsDone(old(db), verdicts, rejected)
        invariant enqueued + VideosOf(WithFate(verdicts[k..], rejected, Enqueued)) ==
                  VideosOf(WithFate(verdicts, rejected, Enqueued))
        invariant failed + VideosOf(WithFate(verdicts[k..], rejected, Bounced)) ==
                  VideosOf(WithFate(verdicts, rejected, Bounced))
      {
        var x := verdicts[k];
        VideosFrom(verdicts, rejected, Enqueued, k);
        VideosFrom(verdicts, rejected, Bounced, k);
        ghost var rest := verdicts[k + 1..];
        AddsFrom(db, verdicts, rejected, k);
        SeqShift(enqueued, x.video, VideosOf(WithFate(rest, rejected, Enqueued)));
        SeqShift(failed, x.video, VideosOf(WithFate(rest, rejected, Bounced)));
        if x.Accepted? {
          var added := AddExecution(x.row, x.video, x.priority, x.video in rejected);
          if added { enqueued := enqueued + [x.video]; } else { failed := failed + [x.video]; }
        }
      }
    }

    /** One chunk: the transaction, then the adds. */
    method EnqueueOne(chunk: seq<VideoId>, raced: set<VideoId>, rejected: set<VideoId>,
                      ghost origin: Db, ghost front: seq<JobId>, ghost back: seq<JobId>, ghost done: seq<Verdict>)
      returns (outcome: ChunkResult, added: seq<VideoId>, failed: seq<VideoId>)
      requires FreshIds(origin) && Extended(origin, db, front, back, done, rejected)
      modifies this
      ensures outcome == EnqueueTx(old(db), chunk, raced)
      ensures !outcome.Committed? ==> db == old(db)
      ensures outcome.Committed? ==>
        (|outcome.verdicts| == |chunk| && (forall k | 0 <= k < |chunk| :: outcome.verdicts[k].video == chunk[k]) &&
         added == VideosOf(WithFate(outcome.verdicts, rejected, Enqueued)) &&
         failed == VideosOf(WithFate(outcome.verdicts, rejected, Bounced)) &&
         Extended(origin, db, front, back, done + outcome.verdicts, rejected))
    {
      added, failed := [], [];
      ghost var before := db;
      outcome := EnqueueChunk(chunk, raced);
      if outcome.Committed? {
        ChunkKeepsRequest(before, chunk, raced, rejected, front, back, done);
        ChunkKeepsRows(before, outcome, rejected, done);
        ChunkJudgesEach(before, MaxPriority(before.jobs, OrderOf(before.jobs)), chunk, raced);
        added, failed := AddAll(outcome.verdicts, rejected);
      }
    }

    /**
     * Chunk by chunk. verdicts lists the outcome of every target that was reached;
     * committed chunks stay committed when a later one finds the priority space exhausted.
     */
    method Enqueue(videoIds: seq<VideoId>, filtered: seq<VideoId>, raced: set<VideoId>, rejected: set<VideoId>)
      returns (r: EnqueueResponse, ghost verdicts: seq<Verdict>)
      requires FreshIds(db)
      modifies this
      ensures var o := OrderOf(old(db).jobs);
        var n := PlacedCount(old(db).jobs, o);
        Extended(old(db), db, o[..n], o[n..], verdicts, rejected)
      ensures r.Response? ==>
        Reported(Dedupe(videoIds + filtered), |Dedupe(videoIds + filtered)|, verdicts, rejected, r.enqueued, r.skipped)
      ensures !r.Response? ==>
        (|verdicts| < |Dedupe(videoIds + filtered)| &&
         VideosOf(verdicts) == Dedupe(videoIds + filtered)[..|verdicts|] &&
         (r.PrioritySpaceExhausted? ==> r.enqueuedSoFar == |VideosOf(WithFate(verdicts, rejected, Enqueued))|))
    {
      var targets := ResolveTargets(videoIds, filtered);
      var enqueued, skipped, offset := [], [], 0;
      verdicts := [];
      ghost var o := OrderOf(db.jobs);
      ghost var n := PlacedCount(db.jobs, o);
      QueueIsAtStart(db.jobs);
      while offset < |targets|
        invariant Extended(old(db), db, o[..n], o[n..], verdicts, rejected)
        invariant Reported(targets, if offset < |targets| then offset else |targets|, verdicts, rejected,
                           enqueued, skipped)
      {
        var end := if offset + ENQUEUE_CHUNK_SIZE <= |targets| then offset + ENQUEUE_CHUNK_SIZE else |targets|;
        var outcome, added, failed :=
          EnqueueOne(targets[offset..end], raced, rejected, old(db), o[..n], o[n..], verdicts);
        if outcome.TailExhausted? { return PrioritySpaceExhausted(|enqueued|), verdicts; }
        if outcome.TailOutOfRange? { return BadStoredPriority, verdicts; }
        ChunkTallies(targets, offset, end, verdicts, outcome.verdicts, rejected, enqueued, skipped);
        skipped := skipped + Refusals(outcome.verdicts) + Bounces(failed);
        enqueued := enqueued + added;
        verdicts := verdicts + outcome.verdicts;
        offset := offset + ENQUEUE_CHUNK_SIZE;
      }
      r := Response(enqueued, skipped);
    }

    // ------------------------------------------------------------------ move --

    /** renumberAll: the order's k-th row gets the grid's k-th slot. */
    static method RenumberAll(t: Table, active: seq<JobId>) returns (respaced: Option<Table>)
      requires IsQueueOrder(t, active)
      ensures respaced == if RenumberedPriorities(|active|).None? then None else Some(Respaced(t, active))
    {
      var grid := RenumberedPriorities(|active|);
      if grid.None? { return None; }
      var tx := t;
      OrderIsThere(t, active);
      for k := 0 to |active|
        invariant PartlyRespaced(t, tx, active, k)
      {
        PartlyRespacedNext(t, tx, active, k);
        tx := tx[active[k] := tx[active[k]].(priority := Some(grid.value[k]))];
      }
      PartlyRespacedAll(t, tx, active);
      return Some(tx);
    }

    /** The advisory-locked transaction: all or nothing. */
    method RunMoveTransaction(jobId: JobId, command: Command) returns (r: Outcome)
      modifies `db
      ensures r == MoveTx(old(db).jobs, jobId, command)
      ensures db == if r.Moved? then old(db).(jobs := r.table) else old(db)
    {
      var tx := db.jobs;
      if jobId !in tx { return NotFound; }
      if tx[jobId].jobType != DOWNLOAD { return BadRequest; }
      if tx[jobId].status == RUNNING { return Conflict; }
      if tx[jobId].status != QUEUED && tx[jobId].status != PAUSED { return Conflict; }

      var active := OrderOf(tx);
      var others := Without(active, jobId);
      assert Active(tx, jobId);
      RowsWithout(tx, active, jobId);
      if command.After? {
        assert command.anchor in others <==> command.anchor != jobId && Active(tx, command.anchor) by {
          assert forall k | 0 <= k < |active| :: Active(tx, active[k]);
        }
        if command.anchor !in others {
          return if command.anchor in tx then BadRequest else NotFound;
        }
        if tx[command.anchor].status == RUNNING { return BadRequest; }
      }

      var renumbered := false;
      var slot := None;
      if HasUnplaced(tx, active) {
        var respaced := RenumberAll(tx, active);
        if respaced.None? { return Unavailable; }
        tx, renumbered := respaced.value, true;
        slot := ComputeSlot(tx, others, command);
      } else {
        slot := ComputeSlot(tx, others, command);
        if slot == Some(Exhausted) {
          var respaced := RenumberAll(tx, active);
          if respaced.None? { return Unavailable; }
          tx, renumbered := respaced.value, true;
          slot := ComputeSlot(tx, others, command);
        }
      }
      r := Placed(tx, jobId, slot, renumbered);
      if r.Moved? { db := db.(jobs := r.table); }
    }

    /** Best effort: a missing execution or a broker fault is skipped. */
    method ChangePriorityQuietly(jobId: JobId, priority: int, unreachable: set<JobId>)
      modifies `execs
      ensures execs == if jobId in old(execs) && jobId !in unreachable
                       then old(execs)[jobId := priority] else old(execs)
    {
      if jobId !in execs { return; }
      if jobId in unreachable { return; }
      execs := execs[jobId := priority];
    }

    /** The two stores agree. */
    ghost predicate Mirrored()
      reads this
    {
      PrioritiesAgree(db.jobs, execs)
    }

    /** The renumbered rows' new priorities, mirrored; the moved row is mirrored by Move. */
    method MirrorRenumbered(active: seq<JobId>, jobId: JobId, unreachable: set<JobId>)
      requires IsQueueOrder(db.jobs, active)
      modifies `execs
      ensures execs.Keys == old(execs).Keys
      ensures forall i | i in execs && (i == jobId || !Active(db.jobs, i) || i in unreachable ||
                                        db.jobs[i].priority.None?) ::
        execs[i] == old(execs)[i]
      ensures forall i | i in execs && i != jobId && Active(db.jobs, i) && i !in unreachable &&
                         db.jobs[i].priority.Some? ::
        execs[i] == db.jobs[i].priority.value
    {
      OrderHasNoDuplicates(db.jobs, active);
      for k := 0 to |active|
        invariant execs.Keys == old(execs).Keys
        invariant forall i | i in execs &&
          (i == jobId || i !in active[..k] || i in unreachable || (i in db.jobs && db.jobs[i].priority.None?)) ::
          execs[i] == old(execs)[i]
        invariant forall j | 0 <= j < k && active[j] in execs && active[j] != jobId && active[j] !in unreachable &&
          active[j] in db.jobs && db.jobs[active[j]].priority.Some? ::
              execs[active[j]] == db.jobs[active[j]].priority.value
      {
        assert Active(db.jobs, active[k]);
        if active[k] != jobId && db.jobs[active[k]].priority.Some? {
          ChangePriorityQuietly(active[k], db.jobs[active[k]].priority.value, unreachable);
        }
      }
      assert active[..|active|] == active;
    }

    /**
     * A move, then the mirror on the live executions. When every execution is reachable
     * the two stores agree after the move if they did before.
     */
    method Move(jobId: JobId, command: Command, unreachable: set<JobId>) returns (r: Outcome)
      modifies this
      ensures r == MoveTx(old(db).jobs, jobId, command)
      ensures db == if r.Moved? then old(db).(jobs := r.table) else old(db)
      ensures !r.Moved? ==> execs == old(execs)
      ensures execs.Keys == old(execs).Keys
      ensures r.Moved? ==> OrderOf(db.jobs) == Relocated(OrderOf(old(db).jobs), jobId, command)
      ensures old(Mirrored()) && unreachable == {} ==> Mirrored()
    {
      r := RunMoveTransaction(jobId, command);
      if !r.Moved? { return; }
      ghost var before := old(db).jobs;
      MoveReorders(before, jobId, command);
      forall i | i in before ensures db.jobs.Keys == before.Keys && RowMoved(before, r, jobId, i) {
        MoveWrites(before, jobId, command, i);
      }
      if r.renumbered {
        MirrorRenumbered(OrderOf(db.jobs), jobId, unreachable);
      }
      if db.jobs[jobId].status == QUEUED {
        ChangePriorityQuietly(jobId, r.slot, unreachable);
      }
      if old(Mirrored()) && unreachable == {} { MirrorFollows(before, r, jobId, old(execs), execs); }
    }
  }

  /** BullMQ's priority of every active, unpaused row equals the row's. */
  ghost predicate PrioritiesAgree(t: Table, execs: map<JobId, int>) {
    forall i | i in execs && Active(t, i) && t[i].status != PAUSED :: t[i].priority == Some(execs[i])
  }

  lemma MirrorFollows(t: Table, r: Outcome, i: JobId, execs: map<JobId, int>, execs': map<JobId, int>)
    requires r.Moved? && i in t && PrioritiesAgree(t, execs) && execs'.Keys == execs.Keys
    requires forall j | j in t :: RowMoved(t, r, i, j)
    requires r.table.Keys == t.Keys
    requires i in execs' && r.table[i].status == QUEUED ==> execs'[i] == r.slot
    requires forall j | j in execs' && j != i ::
      if r.renumbered && Active(r.table, j) && r.table[j].priority.Some? then execs'[j] == r.table[j].priority.value
      else execs'[j] == execs[j]
    ensures PrioritiesAgree(r.table, execs')
  {
    forall j | j in execs' && Active(r.table, j) && r.table[j].status != PAUSED
      ensures r.table[j].priority == Some(execs'[j])
    {
      assert RowMoved(t, r, i, j);
    }
  }

  /** What a successful move did to row j. */
  ghost predicate RowMoved(t: Table, r: Outcome, i: JobId, j: JobId)
    requires r.Moved?
  {
    && SameBut(t, r.table, j, j == i || (r.renumbered && Active(t, j)))
    && (j == i ==> r.table[j].priority == Some(r.slot) && (t[j].status == QUEUED || t[j].status == PAUSED))
    && (r.renumbered && Active(t, j) ==> r.table[j].priority.Some?)
  }

  lemma AllocateWrites(t: Table, o: seq<JobId>, i: JobId, command: Command, j: JobId)
    requires IsQueueOrder(t, o) && Allocate.requires(t, o, i, command) && Allocate(t, o, i, command).Moved? && j in t
    requires t[i].status == QUEUED || t[i].status == PAUSED
    ensures RowMoved(t, Allocate(t, o, i, command), i, j)
  {
    AllocatedFrame(t, o, i, command, j);
    if Active(t, j) {
      RespacedRows(t, o);
      var k :| 0 <= k < |o| && o[k] == j;
    }
  }

  lemma MoveWrites(t: Table, i: JobId, command: Command, j: JobId)
    requires MoveTx(t, i, command).Moved? && j in t
    ensures MoveTx(t, i, command).table.Keys == t.Keys && RowMoved(t, MoveTx(t, i, command), i, j)
  {
    MoveTouchesPrioritiesOnly(t, i, command, j);
    AllocateWrites(t, OrderOf(t), i, command, j);
  }
}
