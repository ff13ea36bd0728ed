/** The enqueue transaction: one chunk of videos under the priority lock. */
module QueueEnqueue {
  import opened Domain
  import opened VideoStatus
  import opened Priority
  import opened QueueOrder

  datatype Video = Video(copy: CopyState, live: bool)

  /** What the transaction reads and writes; nextId stands for the database's id generator. */
  datatype Db = Db(jobs: Table, videos: map<VideoId, Video>, nextId: JobId)

  datatype SkipReason =
    | not_found
    | not_eligible
    | live_retry_refused
    | live_capture_active
    | already_queued
    | enqueue_failed

  datatype Verdict =
    | Accepted(video: VideoId, row: JobId, priority: int)
    | Skipped(video: VideoId, reason: SkipReason)

  datatype ChunkResult =
    | Committed(db: Db, verdicts: seq<Verdict>)
    | TailExhausted      // PriorityExhaustedError: the chunk rolls back
    | TailOutOfRange     // RangeError: a stored priority below 1

  predicate Capturing(t: Table, v: VideoId) {
    exists i | i in t :: t[i].jobType == LIVE_CAPTURE && t[i].video == v &&
        (t[i].status == QUEUED || t[i].status == RUNNING)
  }

  predicate HasDownload(t: Table, v: VideoId) {
    exists i | i in t :: Active(t, i) && t[i].video == v
  }

  /** The checks before a priority is allocated. */
  function Ineligible(db: Db, v: VideoId): Option<SkipReason> {
    if v !in db.videos then Some(not_found)
    else if !Enqueueable(db.videos[v].copy) then Some(not_eligible)
    else if db.videos[v].live && db.videos[v].copy != Candidate then Some(live_retry_refused)
    else if Capturing(db.jobs, v) then Some(live_capture_active)
    else None
  }

  /** INSERT the row, then hop the video to QUEUED. */
  function Admit(db: Db, v: VideoId, priority: int): Db
    requires v in db.videos
  {
    Db(db.jobs[db.nextId := Job(DOWNLOAD, QUEUED, Some(priority), v)],
       db.videos[v := db.videos[v].(copy := Queued)],
       db.nextId + 1)
  }

  function Prepend(verdicts: seq<Verdict>, rest: ChunkResult): ChunkResult {
    if rest.Committed? then rest.(verdicts := verdicts + rest.verdicts) else rest
  }

  /**
   * The loop over the chunk. raced holds the videos that a concurrent writer moves between
   * this transaction's read and its hop: their row is rolled back to the savepoint.
   */
  function Chunk(db: Db, max: Option<int>, chunk: seq<VideoId>, raced: set<VideoId>): ChunkResult
    decreases |chunk|
  {
    if chunk == [] then Committed(db, [])
    else
      var v := chunk[0];
      var no := Ineligible(db, v);
      if no.Some? then Prepend([Skipped(v, no.value)], Chunk(db, max, chunk[1..], raced))
      else
        match TailPriority(max)
        case Exhausted => TailExhausted
        case OutOfRange => TailOutOfRange
        case Slot(p) =>
          if HasDownload(db.jobs, v) then Prepend([Skipped(v, already_queued)], Chunk(db, max, chunk[1..], raced))
          else if v in raced then Prepend([Skipped(v, not_eligible)], Chunk(db, max, chunk[1..], raced))
          else Prepend([Accepted(v, db.nextId, p)], Chunk(Admit(db, v, p), Some(p), chunk[1..], raced))
  }

  /** SELECT max(priority) over the active rows; nulls do not count. */
  function MaxPriority(t: Table, o: seq<JobId>): Option<int> {
    if o == [] then None
    else
      var rest := MaxPriority(t, o[1..]);
      if o[0] !in t || t[o[0]].priority.None? then rest
      else if rest.Some? && rest.value >= t[o[0]].priority.value then rest
      else t[o[0]].priority
  }

  function EnqueueTx(db: Db, chunk: seq<VideoId>, raced: set<VideoId>): ChunkResult {
    Chunk(db, MaxPriority(db.jobs, OrderOf(db.jobs)), chunk, raced)
  }

  /** The rows the verdicts accepted, in request order. */
  function AcceptedRows(verdicts: seq<Verdict>): seq<JobId> {
    if verdicts == [] then []
    else (if verdicts[0].Accepted? then [verdicts[0].row] else []) + AcceptedRows(verdicts[1..])
  }

  ghost predicate FreshIds(db: Db) {
    forall i | i in db.jobs :: i < db.nextId
  }

  /** A row that an enqueue has just created for v. */
  predicate Fresh(t: Table, i: JobId, v: VideoId) {
    i in t && t[i].jobType == DOWNLOAD && t[i].status == QUEUED && t[i].video == v &&
    t[i].priority.Some? && 1 <= t[i].priority.value <= BULLMQ_PRIORITY_MAX
  }

  /** The accepted rows exist as created, with increasing ids from first on. */
  ghost predicate RowsReady(t: Table, first: JobId, verdicts: seq<Verdict>) {
    && (forall k | 0 <= k < |verdicts| && verdicts[k].Accepted? ::
          verdicts[k].row >= first && Fresh(t, verdicts[k].row, verdicts[k].video))
    && (forall j, k | 0 <= j < k < |verdicts| && verdicts[j].Accepted? && verdicts[k].Accepted? ::
          verdicts[j].row < verdicts[k].row)
  }

  // ---------------------------------------------------------- maximum priority --

  ghost predicate IsMax(t: Table, ids: set<JobId>, max: Option<int>) {
    && (forall i | i in ids && i in t && t[i].priority.Some? :: max.Some? && t[i].priority.value <= max.value)
    && (max.Some? ==> exists i | i in ids && i in t :: t[i].priority == max)
  }

  lemma {:induction false} MaxPriorityIsMax(t: Table, o: seq<JobId>)
    ensures IsMax(t, (set i | i in o), MaxPriority(t, o))
  {
    if o != [] {
      MaxPriorityIsMax(t, o[1..]);
      assert forall i | i in o :: i == o[0] || i in o[1..];
      assert MaxPriority(t, o).Some? ==> o[0] in o;
      assert forall i | i in o[1..] :: i in o;
    }
  }

  // ------------------------------------------------------------- what it does --

  /** Existing rows are untouched and new rows get new ids. */
  ghost predicate Grows(db: Db, db': Db) {
    && FreshIds(db') && db'.nextId >= db.nextId
    && (forall i | i in db.jobs :: i in db'.jobs && db'.jobs[i] == db.jobs[i])
    && (forall i | i in db'.jobs && i !in db.jobs :: i >= db.nextId)
  }

  lemma {:induction false} ChunkGrows(db: Db, max: Option<int>, chunk: seq<VideoId>, raced: set<VideoId>)
    requires FreshIds(db) && Chunk(db, max, chunk, raced).Committed?
    ensures Grows(db, Chunk(db, max, chunk, raced).db)
    decreases |chunk|
  {
    if chunk != [] {
      var v := chunk[0];
      if Ineligible(db, v).Some? || HasDownload(db.jobs, v) || v in raced {
        ChunkGrows(db, max, chunk[1..], raced);
      } else {
        ChunkGrows(Admit(db, v, TailPriority(max).at), Some(TailPriority(max).at), chunk[1..], raced);
      }
    }
  }

  lemma ReadyAfterAccepted(t: Table, verdict: Verdict, rest: seq<Verdict>)
    requires verdict.Accepted? && Fresh(t, verdict.row, verdict.video) && RowsReady(t, verdict.row + 1, rest)
    ensures RowsReady(t, verdict.row, [verdict] + rest)
  {}

  lemma ReadyAfterSkipped(t: Table, first: JobId, verdict: Verdict, rest: seq<Verdict>)
    requires verdict.Skipped? && RowsReady(t, first, rest)
    ensures RowsReady(t, first, [verdict] + rest)
  {}

  /** One verdict per target, in the order of the request, each accepted one with its new row. */
  lemma {:induction false} ChunkJudgesEach(db: Db, max: Option<int>, chunk: seq<VideoId>, raced: set<VideoId>)
    requires FreshIds(db) && Chunk(db, max, chunk, raced).Committed?
    ensures var r := Chunk(db, max, chunk, raced);
      && |r.verdicts| == |chunk|
      && (forall k | 0 <= k < |chunk| :: r.verdicts[k].video == chunk[k])
      && RowsReady(r.db.jobs, db.nextId, r.verdicts)
    decreases |chunk|
  {
    if chunk != [] {
      var v := chunk[0];
      var r := Chunk(db, max, chunk, raced);
      if Ineligible(db, v).Some? || HasDownload(db.jobs, v) || v in raced {
        ChunkJudgesEach(db, max, chunk[1..], raced);
        ReadyAfterSkipped(r.db.jobs, db.nextId, r.verdicts[0], Chunk(db, max, chunk[1..], raced).verdicts);
      } else {
        var p := TailPriority(max).at;
        var db' := Admit(db, v, p);
        ChunkJudgesEach(db', Some(p), chunk[1..], raced);
        ChunkGrows(db', Some(p), chunk[1..], raced);
        assert Fresh(db'.jobs, db.nextId, v);
        ReadyAfterAccepted(r.db.jobs, r.verdicts[0], Chunk(db', Some(p), chunk[1..], raced).verdicts);
      }
    }
  }

  /** Nothing stands in the way of an enqueue of v. */
  predicate Eligible(db: Db, v: VideoId, raced: set<VideoId>) {
    Ineligible(db, v).None? && !HasDownload(db.jobs, v) && v !in raced
  }

  lemma AdmitIsLocal(db: Db, u: VideoId, p: int, v: VideoId)
    requires FreshIds(db) && u in db.videos && u != v
    ensures Ineligible(Admit(db, u, p), v) == Ineligible(db, v)
    ensures HasDownload(Admit(db, u, p).jobs, v) == HasDownload(db.jobs, v)
  {
    var t := Admit(db, u, p).jobs;
    assert forall i | i in db.jobs :: i in t && t[i] == db.jobs[i];
    assert Capturing(t, v) ==> Capturing(db.jobs, v);
    assert HasDownload(t, v) ==> HasDownload(db.jobs, v) by {
      if HasDownload(t, v) {
        var i :| i in t && Active(t, i) && t[i].video == v;
        assert Active(db.jobs, i);
      }
    }
    if Capturing(db.jobs, v) {
      var i :| i in db.jobs && db.jobs[i].jobType == LIVE_CAPTURE && db.jobs[i].video == v &&
               (db.jobs[i].status == QUEUED || db.jobs[i].status == RUNNING);
      assert i in t && t[i] == db.jobs[i];
    }
    if HasDownload(db.jobs, v) {
      var i :| i in db.jobs && Active(db.jobs, i) && db.jobs[i].video == v;
      assert i in t && Active(t, i);
    }
  }

  /** The state of v after the chunk, judged by the state before it. */
  function VideoAfter(db: Db, chunk: seq<VideoId>, raced: set<VideoId>, v: VideoId): Video
    requires v in db.videos
  {
    if v in chunk && Eligible(db, v, raced) then db.videos[v].(copy := Queued) else db.videos[v]
  }

  /** One iteration: the verdict on the first target, and what the rest of the loop starts from. */
  lemma ChunkStep(db: Db, max: Option<int>, chunk: seq<VideoId>, raced: set<VideoId>)
    returns (next: Db, max': Option<int>)
    requires FreshIds(db) && chunk != [] && Chunk(db, max, chunk, raced).Committed?
    ensures FreshIds(next) && Chunk(next, max', chunk[1..], raced).Committed?
    ensures var r, rest := Chunk(db, max, chunk, raced), Chunk(next, max', chunk[1..], raced);
      r.db == rest.db && |r.verdicts| == 1 + |rest.verdicts| && r.verdicts[1..] == rest.verdicts &&
      (r.verdicts[0].Accepted? <==> Eligible(db, chunk[0], raced)) &&
      (r.verdicts[0].Accepted? ==> r.verdicts[0].row == db.nextId)
    ensures if Eligible(db, chunk[0], raced)
            then chunk[0] in db.videos && max'.Some? && TailPriority(max) == Slot(max'.value) &&
                next == Admit(db, chunk[0], max'.value)
            else next == db && max' == max
  {
    var u := chunk[0];
    if Eligible(db, u, raced) {
      next, max' := Admit(db, u, TailPriority(max).at), Some(TailPriority(max).at);
    } else {
      next, max' := db, max;
    }
  }

  /** An admission changes nobody else's chances and marks its own video QUEUED. */
  lemma AdmitSettles(db: Db, u: VideoId, p: int, rest: seq<VideoId>, raced: set<VideoId>, v: VideoId)
    requires FreshIds(db) && u in db.videos && Eligible(db, u, raced) && u !in rest
    ensures v != u ==> Eligible(Admit(db, u, p), v, raced) == Eligible(db, v, raced)
    ensures v in db.videos ==> VideoAfter(Admit(db, u, p), rest, raced, v) == VideoAfter(db, [u] + rest, raced, v)
  {
    if v != u { AdmitIsLocal(db, u, p, v); }
  }

  /**
   * A committed chunk of distinct targets accepts exactly the eligible ones, whatever the
   * others in the chunk are; the accepted videos become QUEUED and no other video changes.
   */
  lemma {:induction false} ChunkAcceptsEligible(db: Db, max: Option<int>, chunk: seq<VideoId>, raced: set<VideoId>,
          v: VideoId)
    requires FreshIds(db) && NoDuplicates(chunk) && Chunk(db, max, chunk, raced).Committed?
    ensures var r := Chunk(db, max, chunk, raced);
      && (forall k | 0 <= k < |chunk| && k < |r.verdicts| && chunk[k] == v ::
            r.verdicts[k].Accepted? <==> Eligible(db, v, raced))
      && r.db.videos.Keys == db.videos.Keys
      && (v in db.videos ==> r.db.videos[v] == VideoAfter(db, chunk, raced, v))
    decreases |chunk|
  {
    if chunk != [] {
      var u, rest := chunk[0], chunk[1..];
      assert u !in rest && chunk == [u] + rest;
      var next, max' := ChunkStep(db, max, chunk, raced);
      ChunkAcceptsEligible(next, max', rest, raced, v);
      if Eligible(db, u, raced) {
        AdmitSettles(db, u, max'.value, rest, raced, v);
      }
      var r := Chunk(db, max, chunk, raced);
      forall k | 0 <= k < |chunk| && k < |r.verdicts| && chunk[k] == v
        ensures r.verdicts[k].Accepted? <==> Eligible(db, v, raced)
      {
        if k > 0 { assert rest[k - 1] == v && r.verdicts[1..][k - 1] == r.verdicts[k]; }
      }
    }
  }

  /** The order splits into the rows with a priority, the greatest last, and those without. */
  ghost predicate Split(t: Table, placed: seq<JobId>, unplaced: seq<JobId>, max: Option<int>) {
    && IsQueueOrder(t, placed + unplaced)
    && (forall k | 0 <= k < |placed| :: placed[k] in t && t[placed[k]].priority.Some?)
    && (forall k | 0 <= k < |unplaced| :: unplaced[k] in t && t[unplaced[k]].priority.None?)
    && (forall k | 0 <= k < |placed| && placed[k] in t && t[placed[k]].priority.Some? ::
          max.Some? && t[placed[k]].priority.value <= max.value)
  }

  lemma AdmittedSplits(db: Db, placed: seq<JobId>, unplaced: seq<JobId>, max: Option<int>, v: VideoId)
    requires FreshIds(db) && Split(db.jobs, placed, unplaced, max) && v in db.videos
    requires TailPriority(max).Slot?
    ensures Split(Admit(db, v, TailPriority(max).at).jobs, placed + [db.nextId], unplaced, Some(TailPriority(max).at))
  {
    var t, r, p := db.jobs, db.nextId, TailPriority(max).at;
    var t' := Admit(db, v, p).jobs;
    var rows := placed + unplaced;
    assert t' - {r} == t;
    forall a | 0 <= a < |placed| ensures Before(t', rows[a], r) {
      assert rows[a] == placed[a] && placed[a] in t;
    }
    forall a | |placed| <= a < |rows| ensures Before(t', r, rows[a]) {
      assert rows[a] == unplaced[a - |placed|] && unplaced[a - |placed|] in t;
    }
    InsertedAt(t', rows, r, |placed|);
    assert rows[..|placed|] + [r] + rows[|placed|..] == (placed + [r]) + unplaced;
  }

  lemma AcceptedAfter(verdict: Verdict, rest: seq<Verdict>)
    ensures AcceptedRows([verdict] + rest) == (if verdict.Accepted? then [verdict.row] else []) + AcceptedRows(rest)
  {
    assert ([verdict] + rest)[1..] == rest;
  }

  /** A committed chunk goes behind every row with a priority, in request order. */
  lemma {:induction false} ChunkSplits(
      db: Db, placed: seq<JobId>, unplaced: seq<JobId>, max: Option<int>, chunk: seq<VideoId>, raced: set<VideoId>)
    requires FreshIds(db) && Split(db.jobs, placed, unplaced, max)
    requires Chunk(db, max, chunk, raced).Committed?
    ensures var r := Chunk(db, max, chunk, raced);
      IsQueueOrder(r.db.jobs, placed + AcceptedRows(r.verdicts) + unplaced)
    decreases |chunk|
  {
    if chunk != [] {
      var next, max' := ChunkStep(db, max, chunk, raced);
      var r, rest := Chunk(db, max, chunk, raced), Chunk(next, max', chunk[1..], raced);
      var rows := AcceptedRows(rest.verdicts);
      if Eligible(db, chunk[0], raced) {
        AdmittedSplits(db, placed, unplaced, max, chunk[0]);
        ChunkSplits(next, placed + [db.nextId], unplaced, max', chunk[1..], raced);
        assert AcceptedRows(r.verdicts) == [db.nextId] + rows;
        assert placed + [db.nextId] + rows == placed + ([db.nextId] + rows);
      } else {
        ChunkSplits(next, placed, unplaced, max', chunk[1..], raced);
        assert AcceptedRows(r.verdicts) == [] + rows == rows;
      }
    } else {
      assert placed + AcceptedRows([]) + unplaced == placed + unplaced;
    }
  }

  function PlacedCount(t: Table, o: seq<JobId>): (n: nat)
    ensures n <= |o|
  {
    if o == [] || o[0] !in t || t[o[0]].priority.None? then 0 else 1 + PlacedCount(t, o[1..])
  }

  lemma {:induction false} PlacedFirst(t: Table, o: seq<JobId>)
    requires forall a, b | 0 <= a < b < |o| :: Before(t, o[a], o[b])
    requires forall k | 0 <= k < |o| :: o[k] in t
    ensures var n := PlacedCount(t, o);
      && (forall k | 0 <= k < n :: t[o[k]].priority.Some?)
      && (forall k | n <= k < |o| :: t[o[k]].priority.None?)
    decreases |o|
  {
    if o != [] {
      forall k | 0 <= k < |o[1..]| ensures o[1..][k] in t { assert o[1..][k] == o[k + 1]; }
      if t[o[0]].priority.Some? {
        PlacedFirst(t, o[1..]);
        assert forall k | 0 < k < |o| :: o[k] == o[1..][k - 1];
      } else {
        assert forall k | 0 < k < |o| :: Before(t, o[0], o[k]);
      }
    }
  }

  lemma MaxBounds(t: Table, o: seq<JobId>, k: nat)
    requires k < |o| && o[k] in t && t[o[k]].priority.Some?
    ensures MaxPriority(t, o).Some? && t[o[k]].priority.value <= MaxPriority(t, o).value
  {
    MaxPriorityIsMax(t, o);
    assert o[k] in (set i | i in o);
  }

  lemma OrderSplits(t: Table, o: seq<JobId>)
    requires IsQueueOrder(t, o)
    ensures var n := PlacedCount(t, o);
      && Split(t, o[..n], o[n..], MaxPriority(t, o))
      && (forall k | 0 <= k < |o| :: o[k] in t && (t[o[k]].priority.Some? <==> k < n))
  {
    assert forall k | 0 <= k < |o| :: Active(t, o[k]);
    PlacedFirst(t, o);
    var n := PlacedCount(t, o);
    forall k | 0 <= k < n ensures MaxPriority(t, o).Some? && t[o[k]].priority.value <= MaxPriority(t, o).value {
      MaxBounds(t, o, k);
    }
    SplitsAt(t, o, n, MaxPriority(t, o));
  }

  lemma SplitsAt(t: Table, o: seq<JobId>, n: nat, max: Option<int>)
    requires IsQueueOrder(t, o) && n <= |o| && forall k | 0 <= k < |o| :: o[k] in t
    requires forall k | 0 <= k < n :: t[o[k]].priority.Some? && max.Some? && t[o[k]].priority.value <= max.value
    requires forall k | n <= k < |o| :: t[o[k]].priority.None?
    ensures Split(t, o[..n], o[n..], max)
  {
    assert o[..n] + o[n..] == o;
  }

  /**
   * A committed enqueue puts the accepted rows, in request order, behind every active row
   * that has a priority; only rows with a null priority stay behind them.
   */
  lemma EnqueueAppends(db: Db, chunk: seq<VideoId>, raced: set<VideoId>)
    requires FreshIds(db) && EnqueueTx(db, chunk, raced).Committed?
    ensures var (o, r) := (OrderOf(db.jobs), EnqueueTx(db, chunk, raced));
      var n := PlacedCount(db.jobs, o);
      && (forall k | 0 <= k < |o| :: o[k] in db.jobs && (db.jobs[o[k]].priority.Some? <==> k < n))
      && OrderOf(r.db.jobs) == o[..n] + AcceptedRows(r.verdicts) + o[n..]
  {
    var o := OrderOf(db.jobs);
    OrderSplits(db.jobs, o);
    var n := PlacedCount(db.jobs, o);
    ChunkSplits(db, o[..n], o[n..], MaxPriority(db.jobs, o), chunk, raced);
    var r := EnqueueTx(db, chunk, raced);
    OrderIsUnique(r.db.jobs, OrderOf(r.db.jobs), o[..n] + AcceptedRows(r.verdicts) + o[n..]);
  }

  lemma PrependTwice(sofar: seq<Verdict>, verdict: Verdict, rest: ChunkResult)
    ensures Prepend(sofar, Prepend([verdict], rest)) == Prepend(sofar + [verdict], rest)
  {
    if rest.Committed? { assert sofar + ([verdict] + rest.verdicts) == (sofar + [verdict]) + rest.verdicts; }
  }

  lemma {:induction false} AcceptedRowOf(verdicts: seq<Verdict>, i: JobId)
    requires i in AcceptedRows(verdicts)
    ensures exists k :: 0 <= k < |verdicts| && verdicts[k].Accepted? && verdicts[k].row == i
  {
    if !(verdicts[0].Accepted? && verdicts[0].row == i) {
      AcceptedRowOf(verdicts[1..], i);
      var k :| 0 <= k < |verdicts[1..]| && verdicts[1..][k].Accepted? && verdicts[1..][k].row == i;
      assert verdicts[k + 1] == verdicts[1..][k];
    }
  }

  lemma {:induction false} AcceptedIsIn(verdicts: seq<Verdict>, k: nat)
    requires k < |verdicts| && verdicts[k].Accepted?
    ensures verdicts[k].row in AcceptedRows(verdicts)
  {
    if k > 0 { AcceptedIsIn(verdicts[1..], k - 1); }
  }
}
