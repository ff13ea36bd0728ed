/**
 * The boot reconciler: rows whose execution died are re-added, videos that nothing owns
 * are given back. It runs before any consumer starts, so nobody else writes meanwhile.
 */
module Reconciler {
  import opened Domain

  type RowId = nat
  type VideoId = nat

  datatype Row = Row(
    jobType: JobType,
    status: JobStatus,
    video: Option<VideoId>,
    bullJobId: Option<RowId>,
    priority: Option<int>,
    enqueuedAt: int)

  datatype Video = Video(copy: CopyState, live: bool)

  /** Job.getState(). */
  datatype BullState = waiting | delayed | active | prioritized | waiting_children | completed | failed

  predicate AliveState(st: BullState) {
    st != completed && st != failed
  }

  /** One BullMQ queue per job type; a job is found by its custom id. */
  type Execs = map<(JobType, RowId), BullState>

  datatype Outcome = Reconciled(queued: nat, running: nat, failedVideos: nat) | BadPriority

  predicate Reconcilable(t: JobType) {
    t == DOWNLOAD || t == VERIFY || t == ENUMERATE || t == SOURCE_CHECK
  }

  predicate InScope(row: Row) {
    Reconcilable(row.jobType) && (row.status == QUEUED || row.status == RUNNING)
  }

  predicate IsAlive(execs: Execs, row: Row) {
    row.bullJobId.Some? && (row.jobType, row.bullJobId.value) in execs &&
    AliveState(execs[(row.jobType, row.bullJobId.value)])
  }

  /** The row claims an execution that no longer exists. */
  predicate Dead(execs: Execs, row: Row) {
    InScope(row) && !IsAlive(execs, row)
  }

  /** downloadAddOptions accepts the row's priority; a missing one degrades to the weakest. */
  predicate Addable(row: Row) {
    row.jobType == DOWNLOAD && row.priority.Some? ==> 1 <= row.priority.value <= BULLMQ_PRIORITY_MAX
  }

  /** Finished BullMQ jobs are removed, so whatever is there is alive. */
  ghost predicate FinishedRemoved(execs: Execs) {
    forall k | k in execs :: AliveState(execs[k])
  }

  // ----------------------------------------------------------- what it restores --

  function RowAfter(execs: Execs, r: RowId, row: Row): Row {
    if Dead(execs, row) then row.(status := QUEUED, bullJobId := Some(r)) else row
  }

  function RowsAfter(rows: map<RowId, Row>, execs: Execs): map<RowId, Row> {
    map r | r in rows :: RowAfter(execs, r, rows[r])
  }

  /** queue.add for every dead row; an execution already there under the row's id stays. */
  ghost predicate ExecsAfter(rows: map<RowId, Row>, execs: Execs, execs': Execs) {
    && (forall k | k in execs :: k in execs' && execs'[k] == execs[k])
    && (forall k | k in execs' && k !in execs ::
          k.1 in rows && rows[k.1].jobType == k.0 && Dead(execs, rows[k.1]) && AliveState(execs'[k]))
    && (forall r | r in rows && Dead(execs, rows[r]) :: (rows[r].jobType, r) in execs')
  }

  predicate Owner(row: Row, v: VideoId, types: set<JobType>) {
    row.video == Some(v) && row.jobType in types && IsActive(row.status)
  }

  predicate HasOwner(rows: map<RowId, Row>, v: VideoId, types: set<JobType>) {
    exists r | r in rows :: Owner(rows[r], v, types)
  }

  const DOWNLOAD_OWNERS: set<JobType> := {DOWNLOAD, LIVE_CAPTURE}

  /** A DOWNLOAD row of v that no other DOWNLOAD row of v was enqueued after. */
  predicate Latest(rows: map<RowId, Row>, v: VideoId, r: RowId) {
    r in rows && rows[r].jobType == DOWNLOAD && rows[r].video == Some(v) &&
    forall o | o in rows && rows[o].jobType == DOWNLOAD && rows[o].video == Some(v) ::
      rows[o].enqueuedAt <= rows[r].enqueuedAt
  }

  /** What ORDER BY enqueuedAt DESC LIMIT 1 returned for each video. */
  ghost predicate LatestRows(rows: map<RowId, Row>, latest: map<VideoId, RowId>) {
    && (forall v | v in latest :: Latest(rows, v, latest[v]))
    && (forall r | r in rows && rows[r].jobType == DOWNLOAD && rows[r].video.Some? :: rows[r].video.value in latest)
  }

  predicate CancelCrashed(rows: map<RowId, Row>, latest: map<VideoId, RowId>, v: VideoId) {
    v in latest && latest[v] in rows && rows[latest[v]].status == CANCELED
  }

  predicate Zombie(rows: map<RowId, Row>, v: VideoId, video: Video) {
    video.copy == Downloading && !HasOwner(rows, v, DOWNLOAD_OWNERS)
  }

  predicate Orphan(rows: map<RowId, Row>, v: VideoId, video: Video) {
    video.copy == Queued && !video.live && !HasOwner(rows, v, DOWNLOAD_OWNERS)
  }

  predicate Unverified(rows: map<RowId, Row>, v: VideoId, video: Video) {
    video.copy == Verifying && !HasOwner(rows, v, {VERIFY})
  }

  function VideoAfter(rows: map<RowId, Row>, latest: map<VideoId, RowId>, v: VideoId, video: Video): Video {
    if Zombie(rows, v, video) then video.(copy := if CancelCrashed(rows, latest, v) then Candidate else Failed)
    else if Orphan(rows, v, video) then video.(copy := Candidate)
    else if Unverified(rows, v, video) then video.(copy := Failed)
    else video
  }

  function VideosAfter(
      rows: map<RowId, Row>, latest: map<VideoId, RowId>, videos: map<VideoId, Video>): map<VideoId, Video> {
    map v | v in videos :: VideoAfter(rows, latest, v, videos[v])
  }

  /** bullJobId is null or the row's own id. */
  ghost predicate OwnIds(rows: map<RowId, Row>) {
    forall r | r in rows && rows[r].bullJobId.Some? :: rows[r].bullJobId.value == r
  }

  ghost function DeadRows(rows: map<RowId, Row>, execs: Execs, st: JobStatus): set<RowId> {
    set r | r in rows && Dead(execs, rows[r]) && rows[r].status == st
  }

  ghost function FailedVideos(
      rows: map<RowId, Row>, latest: map<VideoId, RowId>, videos: map<VideoId, Video>): set<VideoId> {
    set v | v in videos && VideoAfter(rows, latest, v, videos[v]) != videos[v] &&
            VideoAfter(rows, latest, v, videos[v]).copy == Failed
  }

  // ------------------------------------------------------------------ results --

  /** Everything in flight has somebody working on it. */
  ghost predicate Settled(rows: map<RowId, Row>, videos: map<VideoId, Video>, execs: Execs) {
    && (forall r | r in rows && InScope(rows[r]) :: IsAlive(execs, rows[r]))
    && (forall v | v in videos && videos[v].copy == Downloading :: HasOwner(rows, v, DOWNLOAD_OWNERS))
    && (forall v | v in videos && videos[v].copy == Queued && !videos[v].live :: HasOwner(rows, v, DOWNLOAD_OWNERS))
    && (forall v | v in videos && videos[v].copy == Verifying :: HasOwner(rows, v, {VERIFY}))
  }

  /** From any crash state, every row and every video in flight is owned by a live execution. */
  lemma BootSettles(rows: map<RowId, Row>, videos: map<VideoId, Video>, execs: Execs, execs': Execs,
                    latest: map<VideoId, RowId>)
    requires OwnIds(rows) && FinishedRemoved(execs) && ExecsAfter(rows, execs, execs')
    ensures var rows' := RowsAfter(rows, execs);
      Settled(rows', VideosAfter(rows', latest, videos), execs')
    ensures OwnIds(RowsAfter(rows, execs)) && FinishedRemoved(execs')
  {
    var rows' := RowsAfter(rows, execs);
    forall r | r in rows' && InScope(rows'[r]) ensures IsAlive(execs', rows'[r]) {}
    forall k | k in execs' ensures AliveState(execs'[k]) {}
  }

  /** A second run finds nothing to do, whatever it is told about latest rows. */
  lemma SecondRunChangesNothing(rows: map<RowId, Row>, videos: map<VideoId, Video>, execs: Execs,
                                execs': Execs, latest: map<VideoId, RowId>)
    requires Settled(rows, videos, execs) && ExecsAfter(rows, execs, execs')
    ensures RowsAfter(rows, execs) == rows && execs' == execs && VideosAfter(rows, latest, videos) == videos
    ensures DeadRows(rows, execs, QUEUED) == {} && DeadRows(rows, execs, RUNNING) == {}
    ensures FailedVideos(rows, latest, videos) == {}
  {
    forall r | r in rows ensures !Dead(execs, rows[r]) {}
    forall v | v in videos ensures VideoAfter(rows, latest, v, videos[v]) == videos[v] {}
  }

  function Hopped(videos: map<VideoId, Video>, group: set<VideoId>, to: CopyState): map<VideoId, Video> {
    map v | v in videos :: if v in group then videos[v].(copy := to) else videos[v]
  }

  /** The four sweeps over disjoint groups, each chosen by what the ones before it left. */
  lemma SweepsCompose(rows: map<RowId, Row>, latest: map<VideoId, RowId>, videos: map<VideoId, Video>,
                      downloading: set<VideoId>, canceled: set<VideoId>, orphans: set<VideoId>, verifying: set<VideoId>)
    requires downloading == (set v | v in videos && Zombie(rows, v, videos[v]))
    requires canceled == (set v | v in downloading && CancelCrashed(rows, latest, v))
    requires orphans == (set v | v in videos && Orphan(rows, v, videos[v]))
    requires verifying == (set v | v in videos && Unverified(rows, v, videos[v]))
    ensures var swept := Hopped(Hopped(videos, canceled, Candidate), downloading - canceled, Failed);
      && (set v | v in swept && Orphan(rows, v, swept[v])) == orphans
      && (set v | v in Hopped(swept, orphans, Candidate) &&
          Unverified(rows, v, Hopped(swept, orphans, Candidate)[v])) == verifying
      && Hopped(Hopped(swept, orphans, Candidate), verifying, Failed) == VideosAfter(rows, latest, videos)
  {
    var swept := Hopped(Hopped(videos, canceled, Candidate), downloading - canceled, Failed);
    forall v | v in videos
      ensures Orphan(rows, v, swept[v]) <==> Orphan(rows, v, videos[v])
      ensures Unverified(rows, v, Hopped(swept, orphans, Candidate)[v]) <==> Unverified(rows, v, videos[v])
      ensures Hopped(Hopped(swept, orphans, Candidate), verifying, Failed)[v] == VideoAfter(rows, latest, v, videos[v])
    {}
  }

  lemma FailedIs(rows: map<RowId, Row>, latest: map<VideoId, RowId>, v: VideoId, video: Video)
    ensures VideoAfter(rows, latest, v, video) != video && VideoAfter(rows, latest, v, video).copy == Failed <==>
            (Zombie(rows, v, video) && !CancelCrashed(rows, latest, v)) || Unverified(rows, v, video)
  {}

  lemma FailedAre(rows: map<RowId, Row>, latest: map<VideoId, RowId>, videos: map<VideoId, Video>,
                  downloading: set<VideoId>, canceled: set<VideoId>, verifying: set<VideoId>)
    requires downloading == (set v | v in videos && Zombie(rows, v, videos[v]))
    requires canceled == (set v | v in downloading && CancelCrashed(rows, latest, v))
    requires verifying == (set v | v in videos && Unverified(rows, v, videos[v]))
    ensures |FailedVideos(rows, latest, videos)| == |downloading - canceled| + |verifying|
  {
    var all := (downloading - canceled) + verifying;
    forall v ensures v in FailedVideos(rows, latest, videos) <==> v in all {
      if v in videos { FailedIs(rows, latest, v, videos[v]); }
    }
    assert FailedVideos(rows, latest, videos) == all;
    assert (downloading - canceled) !! verifying;
  }

  // --------------------------------------------------- the loop, half way through --

  ghost predicate RowsPartly(rows: map<RowId, Row>, execs: Execs, done: set<RowId>, rows': map<RowId, Row>) {
    rows'.Keys == rows.Keys &&
    forall r | r in rows :: rows'[r] == if r in done then RowAfter(execs, r, rows[r]) else rows[r]
  }

  ghost predicate ExecsPartly(rows: map<RowId, Row>, execs: Execs, done: set<RowId>, execs': Execs) {
    && (forall k | k in execs :: k in execs' && execs'[k] == execs[k])
    && (forall k | k in execs' && k !in execs ::
          k.1 in done && k.1 in rows && rows[k.1].jobType == k.0 && AliveState(execs'[k]))
    && (forall r | r in done && r in rows :: (rows[r].jobType, r) in execs')
  }

  /** The executions added so far belong to other rows, so a row's own check still holds. */
  lemma CheckUnaffected(rows: map<RowId, Row>, execs: Execs, done: set<RowId>, execs': Execs, r: RowId)
    requires OwnIds(rows) && ExecsPartly(rows, execs, done, execs') && r in rows && r !in done
    ensures IsAlive(execs', rows[r]) <==> IsAlive(execs, rows[r])
  {}

  /** Reviving one more dead row. */
  lemma PartlyStep(rows: map<RowId, Row>, execs: Execs, done: set<RowId>, rows': map<RowId, Row>, execs': Execs,
                   r: RowId, execs'': Execs)
    requires RowsPartly(rows, execs, done, rows') && ExecsPartly(rows, execs, done, execs')
    requires r in rows && r !in done && OwnIds(rows) && Dead(execs, rows[r])
    requires var k := (rows[r].jobType, r);
      if k in execs' then execs'' == execs'
      else k in execs'' && AliveState(execs''[k]) && execs'' == execs'[k := execs''[k]]
    ensures RowsPartly(rows, execs, done + {r}, rows'[r := RowAfter(execs, r, rows[r])])
    ensures ExecsPartly(rows, execs, done + {r}, execs'')
  {}

  /** The dead rows with the given status among those done. */
  ghost function DoneWith(rows: map<RowId, Row>, done: set<RowId>, st: JobStatus): set<RowId> {
    set r | r in done && r in rows && rows[r].status == st
  }

  lemma CountStep(rows: map<RowId, Row>, done: set<RowId>, r: RowId, st: JobStatus)
    requires r in rows && r !in done
    ensures |DoneWith(rows, done + {r}, st)| == |DoneWith(rows, done, st)| + if rows[r].status == st then 1 else 0
  {
    assert DoneWith(rows, done + {r}, st) == DoneWith(rows, done, st) + if rows[r].status == st then {r} else {};
  }

  lemma PartlyDone(rows: map<RowId, Row>, execs: Execs, done: set<RowId>, rows': map<RowId, Row>, execs': Execs)
    requires forall r :: r in done <==> r in rows && Dead(execs, rows[r])
    requires RowsPartly(rows, execs, done, rows') && ExecsPartly(rows, execs, done, execs')
    ensures rows' == RowsAfter(rows, execs) && ExecsAfter(rows, execs, execs')
    ensures forall st :: DoneWith(rows, done, st) == DeadRows(rows, execs, st)
  {}

  class Boot {
    var rows: map<RowId, Row>
    var videos: map<VideoId, Video>
    var execs: Execs

    constructor (rows: map<RowId, Row>, videos: map<VideoId, Video>, execs: Execs)
      ensures this.rows == rows && this.videos == videos && this.execs == execs
    {
      this.rows, this.videos, this.execs := rows, videos, execs;
    }

    /** One dead row; false when downloadAddOptions throws, which aborts the boot. */
    method ReviveRow(r: RowId) returns (added: bool)
      requires r in rows && Dead(execs, rows[r])
      modifies `rows, `execs
      ensures added <==> Addable(old(rows)[r])
      ensures rows == old(rows)[r := if added then RowAfter(old(execs), r, old(rows)[r])
                                     else old(rows)[r].(status := QUEUED)]
      ensures var k := (old(rows)[r].jobType, r);
        if !added || k in old(execs) then execs == old(execs)
        else k in execs && AliveState(execs[k]) && execs == old(execs)[k := execs[k]]
    {
      if rows[r].status == RUNNING {
        rows := rows[r := rows[r].(status := QUEUED)];
      }
      if !Addable(rows[r]) { return false; }
      var k := (rows[r].jobType, r);
      if k !in execs {
        execs := execs[k := if rows[r].jobType == DOWNLOAD then prioritized else waiting];
      }
      rows := rows[r := rows[r].(bullJobId := Some(r))];
      return true;
    }

    method ReconcileRows() returns (ok: bool, queued: nat, running: nat)
      requires OwnIds(rows)
      modifies `rows, `execs
      ensures (forall r | r in old(rows) && Dead(old(execs), old(rows)[r]) :: Addable(old(rows)[r])) ==> ok
      ensures ok ==> rows == RowsAfter(old(rows), old(execs)) && ExecsAfter(old(rows), old(execs), execs)
      ensures ok ==> queued == |DeadRows(old(rows), old(execs), QUEUED)|
      ensures ok ==> running == |DeadRows(old(rows), old(execs), RUNNING)|
    {
      queued, running := 0, 0;
      var todo := set r | r in rows && InScope(rows[r]);
      ghost var done: set<RowId> := {};
      while todo != {}
        invariant todo <= old(rows).Keys && done !! todo
        invariant forall r | r in todo :: InScope(old(rows)[r])
        invariant forall r | r in old(rows) && Dead(old(execs), old(rows)[r]) :: r in todo || r in done
        invariant forall r | r in done :: r in old(rows) && Dead(old(execs), old(rows)[r])
        invariant queued == |DoneWith(old(rows), done, QUEUED)| && running == |DoneWith(old(rows), done, RUNNING)|
        invariant RowsPartly(old(rows), old(execs), done, rows)
        invariant ExecsPartly(old(rows), old(execs), done, execs)
        decreases |todo|
      {
        var r :| r in todo;
        todo := todo - {r};
        CheckUnaffected(old(rows), old(execs), done, execs, r);
        if !IsAlive(execs, rows[r]) {
          CountStep(old(rows), done, r, QUEUED);
          CountStep(old(rows), done, r, RUNNING);
          if rows[r].status == RUNNING { running := running + 1; } else { queued := queued + 1; }
          ghost var rows', execs' := rows, execs;
          var added := ReviveRow(r);
          if !added { return false, queued, running; }
          PartlyStep(old(rows), old(execs), done, rows', execs', r, execs);
          done := done + {r};
        }
      }
      PartlyDone(old(rows), old(execs), done, rows, execs);
      return true, queued, running;
    }

    /** transitionCopy over one group of videos; the guard always holds here. */
    method Hop(group: set<VideoId>, to: CopyState)
      requires group <= videos.Keys
      modifies `videos
      ensures videos == Hopped(old(videos), group, to)
    {
      var todo := group;
      while todo != {}
        invariant todo <= group && videos.Keys == old(videos).Keys
        invariant forall v | v in videos ::
          videos[v] == if v in group - todo then old(videos)[v].(copy := to) else old(videos)[v]
        decreases |todo|
      {
        var v :| v in todo;
        videos := videos[v := videos[v].(copy := to)];
        todo := todo - {v};
      }
    }

    method ReconcileVideos(latest: map<VideoId, RowId>) returns (failedVideos: nat)
      modifies `videos
      ensures videos == VideosAfter(rows, latest, old(videos))
      ensures failedVideos == |FailedVideos(rows, latest, old(videos))|
    {
      var downloading := set v | v in videos && Zombie(rows, v, videos[v]);
      var canceled := set v | v in downloading && CancelCrashed(rows, latest, v);
      ghost var ownerless := set v | v in videos && Orphan(rows, v, videos[v]);
      ghost var unverified := set v | v in videos && Unverified(rows, v, videos[v]);
      SweepsCompose(rows, latest, videos, downloading, canceled, ownerless, unverified);
      FailedAre(rows, latest, videos, downloading, canceled, unverified);
      Hop(canceled, Candidate);
      Hop(downloading - canceled, Failed);
      var orphans := set v | v in videos && Orphan(rows, v, videos[v]);
      Hop(orphans, Candidate);
      var verifying := set v | v in videos && Unverified(rows, v, videos[v]);
      Hop(verifying, Failed);
      failedVideos := |downloading - canceled| + |verifying|;
    }

    /**
     * The boot pass. Unless a stored priority aborts it, everything in flight is owned by a
     * live execution afterwards, and PAUSED and settled rows are as they were.
     */
    method Run(latest: map<VideoId, RowId>) returns (r: Outcome)
      requires OwnIds(rows) && FinishedRemoved(execs) && LatestRows(rows, latest)
      modifies this
      ensures (forall i | i in old(rows) && Dead(old(execs), old(rows)[i]) :: Addable(old(rows)[i])) ==> r.Reconciled?
      ensures r.Reconciled? ==>
        (rows == RowsAfter(old(rows), old(execs)) && ExecsAfter(old(rows), old(execs), execs) &&
         videos == VideosAfter(rows, latest, old(videos)) && Settled(rows, videos, execs))
      ensures r.Reconciled? ==>
        forall i | i in old(rows) && !InScope(old(rows)[i]) :: rows[i] == old(rows)[i]
      ensures r.Reconciled? ==>
        (r.queued == |DeadRows(old(rows), old(execs), QUEUED)| &&
         r.running == |DeadRows(old(rows), old(execs), RUNNING)| &&
         r.failedVideos == |FailedVideos(rows, latest, old(videos))|)
    {
      var ok, queued, running := ReconcileRows();
      if !ok { return BadPriority; }
      var failedVideos := ReconcileVideos(latest);
      BootSettles(old(rows), old(videos), old(execs), execs, latest);
      r := Reconciled(queued, running, failedVideos);
    }
  }
}
