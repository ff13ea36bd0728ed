/** What every run of enqueues, moves and status changes keeps of the priority index. */
module QueueRuns {
  import opened Domain
  import opened Priority
  import opened QueueOrder
  import opened QueueEnqueue
  import opened QueueMove

  /**
   * One committed transaction. Status writes are the recorder's, the reconciler's and the
   * owner's; they never touch a terminal row and never write a priority.
   */
  datatype Op =
    | EnqueueChunk(chunk: seq<VideoId>, raced: set<VideoId>)
    | MoveJob(row: JobId, command: Command)
    | WriteStatus(row: JobId, status: JobStatus)
    | InsertOther(other: Job)
    | WriteVideo(video: VideoId, state: Video)

  function Step(db: Db, op: Op): Db {
    match op
    case EnqueueChunk(chunk, raced) =>
      var r := EnqueueTx(db, chunk, raced);
      if r.Committed? then r.db else db
    case MoveJob(i, command) =>
      var r := MoveTx(db.jobs, i, command);
      if r.Moved? then db.(jobs := r.table) else db
    case WriteStatus(i, status) =>
      if i in db.jobs && !IsTerminal(db.jobs[i].status) then
        db.(jobs := db.jobs[i := db.jobs[i].(status := status)])
      else db
    case InsertOther(other) =>
      if other.jobType == DOWNLOAD then db
      else db.(jobs := db.jobs[db.nextId := other], nextId := db.nextId + 1)
    case WriteVideo(v, state) => db.(videos := db.videos[v := state])
  }

  function Run(db: Db, ops: seq<Op>): Db
    decreases |ops|
  {
    if ops == [] then db else Run(Step(db, ops[0]), ops[1..])
  }

  predicate InRange(p: Option<int>) {
    p.Some? && 1 <= p.value <= BULLMQ_PRIORITY_MAX
  }

  /** Active rows have distinct priorities that BullMQ accepts. */
  ghost predicate Sound(t: Table) {
    && (forall i | Active(t, i) :: InRange(t[i].priority))
    && (forall i, j | Active(t, i) && Active(t, j) && i != j :: t[i].priority != t[j].priority)
  }

  ghost predicate Bounded(t: Table, max: Option<int>) {
    forall i | Active(t, i) :: max.Some? && t[i].priority.Some? && t[i].priority.value <= max.value
  }

  lemma AdmitKeepsSound(db: Db, v: VideoId, max: Option<int>)
    requires FreshIds(db) && Sound(db.jobs) && Bounded(db.jobs, max) && v in db.videos
    requires TailPriority(max).Slot?
    ensures var db' := Admit(db, v, TailPriority(max).at);
      FreshIds(db') && Sound(db'.jobs) && Bounded(db'.jobs, Some(TailPriority(max).at))
  {
    var db' := Admit(db, v, TailPriority(max).at);
    assert forall i | Active(db'.jobs, i) && i != db.nextId :: Active(db.jobs, i);
  }

  lemma {:induction false} ChunkKeepsSound(db: Db, max: Option<int>, chunk: seq<VideoId>, raced: set<VideoId>)
    requires FreshIds(db) && Sound(db.jobs) && Bounded(db.jobs, max)
    requires Chunk(db, max, chunk, raced).Committed?
    ensures var r := Chunk(db, max, chunk, raced); FreshIds(r.db) && Sound(r.db.jobs)
    decreases |chunk|
  {
    if chunk != [] {
      var v := chunk[0];
      if Ineligible(db, v).Some? || HasDownload(db.jobs, v) || v in raced {
        ChunkKeepsSound(db, max, chunk[1..], raced);
      } else {
        AdmitKeepsSound(db, v, max);
        ChunkKeepsSound(Admit(db, v, TailPriority(max).at), Some(TailPriority(max).at), chunk[1..], raced);
      }
    }
  }

  lemma EnqueueKeepsSound(db: Db, chunk: seq<VideoId>, raced: set<VideoId>)
    requires FreshIds(db) && Sound(db.jobs) && EnqueueTx(db, chunk, raced).Committed?
    ensures var r := EnqueueTx(db, chunk, raced); FreshIds(r.db) && Sound(r.db.jobs)
  {
    var o := OrderOf(db.jobs);
    MaxPriorityIsMax(db.jobs, o);
    forall i | Active(db.jobs, i)
      ensures MaxPriority(db.jobs, o).Some? && db.jobs[i].priority.value <= MaxPriority(db.jobs, o).value
    {
      assert i in (set j | j in o);
    }
    ChunkKeepsSound(db, MaxPriority(db.jobs, o), chunk, raced);
  }

  lemma SlotInRange(t: Table, rows: seq<JobId>, command: Command)
    requires forall k | 0 <= k < |rows| :: InRange(PriorityAt(t, rows, k))
    requires command.After? ==> command.anchor in rows
    requires SlotFound(ComputeSlot(t, rows, command))
    ensures InRange(Some(ComputeSlot(t, rows, command).value.at))
  {
    if command.After? { IndexOfFinds(rows, command.anchor); }
  }

  lemma PlacingKeepsSound(t: Table, o: seq<JobId>, i: JobId, command: Command)
    requires IsQueueOrder(t, o) && Sound(t) && Active(t, i)
    requires command.After? ==> command.anchor != i && command.anchor in o
    requires SlotFound(ComputeSlot(t, Without(o, i), command))
    ensures Sound(t[i := t[i].(priority := Some(ComputeSlot(t, Without(o, i), command).value.at))])
  {
    var rows := Without(o, i);
    forall k | 0 <= k < |o| ensures InRange(PriorityAt(t, o, k)) { assert Active(t, o[k]); }
    PlacingRelocates(t, o, i, command);
    RowsWithout(t, o, i);
    forall k | 0 <= k < |rows| ensures InRange(PriorityAt(t, rows, k)) {
      assert Active(t - {i}, rows[k]) && Active(t, rows[k]);
    }
    SlotInRange(t, rows, command);
    var p := ComputeSlot(t, rows, command).value.at;
    var t' := t[i := t[i].(priority := Some(p))];
    forall j | Active(t', j) && j != i ensures t'[j].priority != Some(p) {
      assert Active(t - {i}, j) && j in rows;
      var a :| 0 <= a < |rows| && rows[a] == j;
      assert Below(t - {i}, rows[a], p) || Above(t - {i}, rows[a], p);
    }
    forall j | Active(t', j) && j != i ensures Active(t, j) && t'[j] == t[j] {}
  }

  lemma RespacedIsSound(t: Table, o: seq<JobId>)
    requires IsQueueOrder(t, o) && |o| <= GRID_CAPACITY
    ensures Sound(Respaced(t, o))
  {
    RespacedRows(t, o);
    RespacingKeepsOrder(t, o);
    var t' := Respaced(t, o);
    forall i | Active(t', i) ensures InRange(t'[i].priority) {
      var k :| 0 <= k < |o| && o[k] == i;
    }
    forall i, j | Active(t', i) && Active(t', j) && i != j ensures t'[i].priority != t'[j].priority {
      var k :| 0 <= k < |o| && o[k] == i;
      var l :| 0 <= l < |o| && o[l] == j;
    }
  }

  lemma AllocateKeepsSound(t: Table, o: seq<JobId>, i: JobId, command: Command)
    requires IsQueueOrder(t, o) && Sound(t) && Active(t, i)
    requires command.After? ==> command.anchor != i && command.anchor in o
    requires Allocate(t, o, i, command).Moved?
    ensures Sound(Allocate(t, o, i, command).table)
  {
    if Allocate(t, o, i, command).renumbered {
      RespacedIsSound(t, o);
      RespacingKeepsOrder(t, o);
      RespacedFrame(t, o, i);
      PlacingKeepsSound(Respaced(t, o), o, i, command);
    } else {
      PlacingKeepsSound(t, o, i, command);
    }
  }

  lemma MoveKeepsSound(db: Db, i: JobId, command: Command)
    requires FreshIds(db) && Sound(db.jobs) && MoveTx(db.jobs, i, command).Moved?
    ensures FreshIds(db.(jobs := MoveTx(db.jobs, i, command).table)) && Sound(MoveTx(db.jobs, i, command).table)
  {
    assert Active(db.jobs, i);
    AllocateKeepsSound(db.jobs, OrderOf(db.jobs), i, command);
    MoveTouchesPrioritiesOnly(db.jobs, i, command, i);
  }

  lemma StepKeepsSound(db: Db, op: Op)
    requires FreshIds(db) && Sound(db.jobs)
    ensures FreshIds(Step(db, op)) && Sound(Step(db, op).jobs)
  {
    match op
    case EnqueueChunk(chunk, raced) =>
      if EnqueueTx(db, chunk, raced).Committed? { EnqueueKeepsSound(db, chunk, raced); }
    case MoveJob(i, command) => if MoveTx(db.jobs, i, command).Moved? { MoveKeepsSound(db, i, command); }
    case WriteStatus(i, status) =>
      assert forall j | Active(Step(db, op).jobs, j) :: Active(db.jobs, j);
    case InsertOther(other) =>
      assert forall j | Active(Step(db, op).jobs, j) :: Active(db.jobs, j);
    case WriteVideo(_, _) =>
  }

  /**
   * From a table without jobs, any interleaving of enqueue chunks, moves and status writes
   * leaves the active DOWNLOAD rows with distinct, non-null priorities in [1, 2097152].
   */
  lemma {:induction false} RunKeepsPriorities(db: Db, ops: seq<Op>)
    requires FreshIds(db) && Sound(db.jobs)
    ensures FreshIds(Run(db, ops)) && Sound(Run(db, ops).jobs)
    decreases |ops|
  {
    if ops != [] {
      StepKeepsSound(db, ops[0]);
      RunKeepsPriorities(Step(db, ops[0]), ops[1..]);
    }
  }

  lemma RowsNeverCrash(t: Table, o: seq<JobId>, i: JobId, command: Command)
    requires IsQueueOrder(t, o) && Sound(t) && Active(t, i)
    ensures ComputeSlot(t, Without(o, i), command) != Some(OutOfRange)
  {
    RowsWithout(t, o, i);
    var rows := Without(o, i);
    forall k | 0 <= k < |rows| ensures Active(t, rows[k]) { assert Active(t - {i}, rows[k]); }
    forall a, b | 0 <= a < b < |rows| ensures Before(t, rows[a], rows[b]) {
      assert Before(t - {i}, rows[a], rows[b]);
    }
    SoundSlot(t, rows, command);
  }

  lemma AllocateNeverCrashes(t: Table, o: seq<JobId>, i: JobId, command: Command)
    requires IsQueueOrder(t, o) && Sound(t) && Active(t, i)
    ensures !Allocate(t, o, i, command).Crashed?
  {
    RowsNeverCrash(t, o, i, command);
    if |o| <= GRID_CAPACITY {
      RespacedIsSound(t, o);
      RespacingKeepsOrder(t, o);
      RespacedFrame(t, o, i);
      RowsNeverCrash(Respaced(t, o), o, i, command);
    }
  }

  /** So on every reachable table a move never crashes on a stored priority. */
  lemma ReachableMovesNeverCrash(db: Db, ops: seq<Op>, i: JobId, command: Command)
    requires db.jobs == map[]
    ensures !MoveTx(Run(db, ops).jobs, i, command).Crashed?
  {
    RunKeepsPriorities(db, ops);
    var t := Run(db, ops).jobs;
    if Refusal(t, i, command).None? {
      assert Active(t, i);
      AllocateNeverCrashes(t, OrderOf(t), i, command);
    }
  }

  lemma SoundSlot(t: Table, rows: seq<JobId>, command: Command)
    requires Sound(t) && forall k | 0 <= k < |rows| :: Active(t, rows[k])
    requires forall a, b | 0 <= a < b < |rows| :: Before(t, rows[a], rows[b])
    ensures ComputeSlot(t, rows, command) != Some(OutOfRange)
  {
    assert forall k | 0 <= k < |rows| :: InRange(PriorityAt(t, rows, k));
    if command.After? { IndexOfFinds(rows, command.anchor); }
  }
}
