/**
 * The worker side of the durable Job row. Status writes are guarded on the row's current
 * status, so the first terminal verdict wins; a database fault is swallowed, except at
 * the claim. Telemetry and the staging pointer are written without a guard.
 */
module JobRecorder {
  import opened Domain
  import opened JobStatusCas

  type JobId = nat

  datatype Progress = Progress(percent: nat, bytes: nat)

  const ZEROED := Progress(0, 0)

  /** A row, and the bytes in the staging directory its partial download uses. */
  datatype Row = Row(
    status: JobStatus,
    attempt: nat,
    progress: Progress,
    stagingDir: Option<string>,
    bullJobId: Option<JobId>,
    priority: Option<int>,
    error: Option<string>,
    partial: nat)

  datatype Claim = Claimed | Skipped | DatabaseFault

  // ------------------------------------------------------------ one row's writes --

  datatype Write =
    | ClaimRow(bullJobId: JobId, attemptsStarted: int)
    | Requeue
    | PauseRow
    | Finish(verdict: JobStatus, message: Option<string>, clearStagingDir: bool)
    | Resume                                  // the api's PAUSED -> QUEUED
    | Revive(own: JobId)                      // the boot reconciler, for a dead execution
    | Report(progress: Progress)              // the progress reporter
    | Start(dir: string, attemptsStarted: int, saved: bool)   // staging set up; the pointer's fault is swallowed
    | Grow(bytes: nat)                        // yt-dlp appends to the partial
    | Wipe(reason: WipeReason)                // staging is removed on purpose

  datatype WipeReason = Unresumable | Published | CanceledByOwner

  predicate Wins(row: Row, w: Write) {
    match w
    case ClaimRow(_, started) => CanClaim(row.status, started)
    case Requeue => row.status == RUNNING
    case PauseRow => row.status == RUNNING
    case Finish(_, _, _) => !IsTerminal(row.status)
    case Resume => row.status == PAUSED
    case Revive(_) => row.status == QUEUED || row.status == RUNNING
    case _ => true
  }

  /** Wipe staging only when no execution of this row ever registered a directory. */
  predicate FreshStart(row: Row, attemptsStarted: int) {
    attemptsStarted <= 1 && row.stagingDir.None?
  }

  /** The row after a write whose guard holds. */
  function Won(row: Row, w: Write): Row {
    match w
    case ClaimRow(id, _) => row.(status := RUNNING, bullJobId := Some(id), attempt := row.attempt + 1)
    case Requeue => row.(status := AfterRequeue(row.status), progress := ZEROED)
    case PauseRow => row.(status := AfterPause(row.status))
    case Finish(verdict, message, clear) =>
      row.(status := AfterFinish(row.status, verdict),
           error := if message.Some? then message else row.error,
           stagingDir := if clear then None else row.stagingDir,
           progress := if verdict == COMPLETED then row.progress else ZEROED)
    case Resume => row.(status := QUEUED)
    case Revive(own) => row.(status := QUEUED, bullJobId := Some(own))
    case Report(p) => row.(progress := p)
    case Start(dir, started, saved) =>
      row.(partial := if FreshStart(row, started) then 0 else row.partial,
           stagingDir := if saved then Some(dir) else row.stagingDir)
    case Grow(bytes) => row.(partial := row.partial + bytes)
    case Wipe(_) => row.(partial := 0)
  }

  function Written(row: Row, w: Write): Row {
    if Wins(row, w) then Won(row, w) else row
  }

  function WrittenAll(row: Row, writes: seq<Write>): Row
    decreases |writes|
  {
    if writes == [] then row else WrittenAll(Written(row, writes[0]), writes[1..])
  }

  // ---------------------------------------------------------------- the recorder --

  class Recorder {
    var rows: map<JobId, Row>

    constructor (rows: map<JobId, Row>)
      ensures this.rows == rows
    {
      this.rows := rows;
    }

    /** updateMany under the write's guard: 0 rows when the row is gone or the guard fails. */
    method UpdateMany(id: JobId, w: Write) returns (count: nat)
      modifies this
      ensures count == if id in old(rows) && Wins(old(rows)[id], w) then 1 else 0
      ensures rows == if count == 1 then old(rows)[id := Won(old(rows)[id], w)] else old(rows)
    {
      if id in rows && Wins(rows[id], w) {
        rows := rows[id := Won(rows[id], w)];
        return 1;
      }
      return 0;
    }

    /** The cancel gate: a fault here is reported, never read as a claim. */
    method ClaimForAttempt(id: JobId, bullJobId: JobId, attemptsStarted: int, fault: bool) returns (r: Claim)
      modifies this
      ensures r.Claimed? <==> !fault && id in old(rows) && CanClaim(old(rows)[id].status, attemptsStarted)
      ensures r.DatabaseFault? <==> fault
      ensures rows == if r.Claimed? then old(rows)[id := Written(old(rows)[id], ClaimRow(bullJobId, attemptsStarted))]
                      else old(rows)
      ensures r.Claimed? ==>
        rows[id].status == RUNNING && !IsTerminal(old(rows)[id].status) && old(rows)[id].status != PAUSED
    {
      if fault { return DatabaseFault; }
      var count := UpdateMany(id, ClaimRow(bullJobId, attemptsStarted));
      return if count > 0 then Claimed else Skipped;
    }

    method MarkRequeuedForRetry(id: JobId, fault: bool)
      modifies this
      ensures rows == if !fault && id in old(rows) then old(rows)[id := Written(old(rows)[id], Requeue)] else old(rows)
    {
      if fault { return; }
      var _ := UpdateMany(id, Requeue);
    }

    /** A swallowed fault reads as "proceed". */
    method MarkPaused(id: JobId, fault: bool) returns (paused: bool)
      modifies this
      ensures paused <==> fault || (id in old(rows) && old(rows)[id].status == RUNNING)
      ensures rows == if !fault && id in old(rows) then old(rows)[id := Written(old(rows)[id], PauseRow)] else old(rows)
    {
      if fault { return true; }
      var count := UpdateMany(id, PauseRow);
      return count > 0;
    }

    method MarkFinished(id: JobId, verdict: JobStatus, message: Option<string>, clearStagingDir: bool, fault: bool)
      returns (transitioned: bool)
      requires IsTerminal(verdict)
      modifies this
      ensures transitioned <==> fault || (id in old(rows) && !IsTerminal(old(rows)[id].status))
      ensures rows == if !fault && id in old(rows)
                      then old(rows)[id := Written(old(rows)[id], Finish(verdict, message, clearStagingDir))]
                      else old(rows)
    {
      if fault { return true; }
      var count := UpdateMany(id, Finish(verdict, message, clearStagingDir));
      return count > 0;
    }
  }

  // ------------------------------------------------------------- whole histories --

  predicate ProperFinishes(writes: seq<Write>) {
    forall w | w in writes && w.Finish? :: IsTerminal(w.verdict)
  }

  /**
   * The first terminal verdict wins: whatever is written later, late progress frames and
   * staging pointers included, the verdict, its error, the attempt count and the priority
   * stay.
   */
  lemma {:induction false} FirstVerdictWins(row: Row, writes: seq<Write>)
    requires IsTerminal(row.status)
    ensures var r := WrittenAll(row, writes);
      r.status == row.status && r.error == row.error && r.attempt == row.attempt &&
      r.bullJobId == row.bullJobId && r.priority == row.priority
    decreases |writes|
  {
    if writes != [] { FirstVerdictWins(Written(row, writes[0]), writes[1..]); }
  }

  /** The claims that win along a history. */
  function ClaimsWon(row: Row, writes: seq<Write>): nat
    decreases |writes|
  {
    if writes == [] then 0
    else
      (if writes[0].ClaimRow? && Wins(row, writes[0]) then 1 else 0) +
      ClaimsWon(Written(row, writes[0]), writes[1..])
  }

  /** attempt counts the row's executions across pauses, resumes and retries; no write changes the priority. */
  lemma {:induction false} AttemptCountsExecutions(row: Row, writes: seq<Write>)
    ensures WrittenAll(row, writes).attempt == row.attempt + ClaimsWon(row, writes)
    ensures WrittenAll(row, writes).priority == row.priority
    decreases |writes|
  {
    if writes != [] { AttemptCountsExecutions(Written(row, writes[0]), writes[1..]); }
  }

  /** What is downloaded since the last wipe on purpose. */
  function Downloaded(before: nat, writes: seq<Write>): nat
    decreases |writes|
  {
    if writes == [] then before
    else
      Downloaded(match writes[0]
                 case Grow(bytes) => before + bytes
                 case Wipe(_) => 0
                 case _ => before, writes[1..])
  }

  /**
   * Once an execution has registered its staging directory, and until the row settles, the
   * partial is exactly what was downloaded since staging was last wiped on purpose: no
   * pause, resume, retry, drain, revival or re-execution loses a byte, even though a
   * resumed row gets a new execution whose attemptsStarted is 1 again.
   */
  lemma {:induction false} PartialSurvives(row: Row, writes: seq<Write>)
    requires row.stagingDir.Some? && ProperFinishes(writes)
    requires !IsTerminal(WrittenAll(row, writes).status)
    ensures WrittenAll(row, writes).partial == Downloaded(row.partial, writes)
    ensures WrittenAll(row, writes).stagingDir.Some?
    decreases |writes|
  {
    if writes != [] {
      var next := Written(row, writes[0]);
      if IsTerminal(next.status) { FirstVerdictWins(next, writes[1..]); }
      PartialSurvives(next, writes[1..]);
    }
  }

  /** A first execution downloads some bytes and is paused; the resumed one sets staging up again. */
  function PauseAndResume(dir: string, bytes: nat, saved: bool): seq<Write> {
    [ClaimRow(0, 1), Start(dir, 1, saved), Grow(bytes), PauseRow, Resume, ClaimRow(0, 1), Start(dir, 1, true)]
  }

  lemma AndThen(row: Row, w: Write, writes: seq<Write>)
    ensures WrittenAll(row, [w] + writes) == WrittenAll(Written(row, w), writes)
  {
    assert ([w] + writes)[1..] == writes;
  }

  /**
   * The fault that the pointer's write swallows matters: a download that is paused and
   * resumed keeps its partial exactly if its first execution's pointer was saved.
   */
  lemma ResumeNeedsPointer(row: Row, dir: string, bytes: nat, saved: bool)
    requires row.status == QUEUED && row.stagingDir.None?
    ensures var r := WrittenAll(row, PauseAndResume(dir, bytes, saved));
      r.status == RUNNING && r.partial == if saved then bytes else 0
  {
    var w := PauseAndResume(dir, bytes, saved);
    var r1 := Written(Written(Written(row, w[0]), w[1]), w[2]);
    var r2 := Written(Written(Written(r1, w[3]), w[4]), w[5]);
    AndThen(row, w[0], w[1..]);
    AndThen(Written(row, w[0]), w[1], w[2..]);
    AndThen(Written(Written(row, w[0]), w[1]), w[2], w[3..]);
    AndThen(r1, w[3], w[4..]);
    AndThen(Written(r1, w[3]), w[4], w[5..]);
    AndThen(Written(Written(r1, w[3]), w[4]), w[5], w[6..]);
    AndThen(r2, w[6], []);
    assert [w[0]] + w[1..] == w && [w[1]] + w[2..] == w[1..] && [w[2]] + w[3..] == w[2..] && [w[3]] + w[4..] == w[3..];
    assert [w[4]] + w[5..] == w[4..] && [w[5]] + w[6..] == w[5..] && [w[6]] + [] == w[6..];
  }
}
