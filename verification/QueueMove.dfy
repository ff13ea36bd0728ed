/** The move transaction: slot computation, renumbering, and what both do to the order. */
module QueueMove {
  import opened Domain
  import opened Priority
  import opened QueueOrder

  datatype Command = Top | Bottom | After(anchor: JobId)

  /** The priority of the k-th row of the list; None past its ends. */
  function PriorityAt(t: Table, rows: seq<JobId>, k: int): Option<int> {
    if 0 <= k < |rows| && rows[k] in t then t[rows[k]].priority else None
  }

  /** None: the anchor has no queue position. */
  function ComputeSlot(t: Table, rows: seq<JobId>, command: Command): Option<Slot> {
    match command
    case Top => Some(HeadPriority(PriorityAt(t, rows, 0)))
    case Bottom => Some(TailPriority(PriorityAt(t, rows, |rows| - 1)))
    case After(anchor) =>
      var idx := IndexOf(rows, anchor);
      if idx.None? then None
      else
        match (PriorityAt(t, rows, idx.value), PriorityAt(t, rows, idx.value + 1))
        case (None, _) => None
        case (Some(target), None) => Some(TailPriority(Some(target)))
        case (Some(target), Some(successor)) => Some(MidpointPriority(target, successor))
  }

  /** renumberAll's writes: the k-th row of the order gets the k-th slot of the grid. */
  function Respaced(t: Table, o: seq<JobId>): Table {
    map i | i in t ::
      var k := IndexOf(o, i);
      if k.Some? then t[i].(priority := Some(PRIORITY_START + k.value * PRIORITY_GAP)) else t[i]
  }

  datatype Outcome =
    | Moved(table: Table, slot: int, renumbered: bool)
    | NotFound                 // 404: no such job, or no such anchor
    | BadRequest               // 400: not a DOWNLOAD row, or an anchor that is not waiting
    | Conflict                 // 409: already started, already settled
    | Unavailable              // 503: even the grid is too small
    | Crashed                  // RangeError: a stored priority below 1

  function Placed(t: Table, i: JobId, slot: Option<Slot>, renumbered: bool): Outcome
    requires i in t
  {
    match slot
    case None => BadRequest
    case Some(Slot(p)) => Moved(t[i := t[i].(priority := Some(p))], p, renumbered)
    case Some(Exhausted) => Unavailable
    case Some(OutOfRange) => Crashed
  }

  function Renumbered(t: Table, o: seq<JobId>, i: JobId, command: Command): Outcome
    requires i in t
  {
    if RenumberedPriorities(|o|).None? then Unavailable
    else
      var t' := Respaced(t, o);
      Placed(t', i, ComputeSlot(t', Without(o, i), command), true)
  }

  function Refusal(t: Table, i: JobId, command: Command): Option<Outcome> {
    if i !in t then Some(NotFound)
    else if t[i].jobType != DOWNLOAD then Some(BadRequest)
    else if t[i].status != QUEUED && t[i].status != PAUSED then Some(Conflict)
    else if command.After? && !(command.anchor != i && Active(t, command.anchor)) then
      Some(if command.anchor in t then BadRequest else NotFound)
    else if command.After? && t[command.anchor].status == RUNNING then Some(BadRequest)
    else None
  }

  predicate HasUnplaced(t: Table, o: seq<JobId>) {
    exists k | 0 <= k < |o| :: PriorityAt(t, o, k) == None
  }

  /** Null priorities are healed onto the grid first; otherwise an exhausted slot renumbers. */
  function Allocate(t: Table, o: seq<JobId>, i: JobId, command: Command): Outcome
    requires i in t
  {
    if HasUnplaced(t, o) || ComputeSlot(t, Without(o, i), command) == Some(Exhausted) then Renumbered(t, o, i, command)
    else Placed(t, i, ComputeSlot(t, Without(o, i), command), false)
  }

  /** The transaction as a function of the table it reads. */
  function MoveTx(t: Table, i: JobId, command: Command): Outcome {
    var refusal := Refusal(t, i, command);
    if refusal.Some? then refusal.value else Allocate(t, OrderOf(t), i, command)
  }

  // -------------------------------------------- what a move does to the order --

  /** Where the command puts a job among the others. */
  function Position(rows: seq<JobId>, command: Command): nat {
    match command
    case Top => 0
    case Bottom => |rows|
    case After(anchor) => var k := IndexOf(rows, anchor); if k.Some? then k.value + 1 else 0
  }

  function Reinserted(rows: seq<JobId>, i: JobId, command: Command): seq<JobId> {
    var k := Position(rows, command);
    if k <= |rows| then rows[..k] + [i] + rows[k..] else rows
  }

  /** The order with i taken out and put back at the top, at the bottom, or after the anchor. */
  function Relocated(o: seq<JobId>, i: JobId, command: Command): seq<JobId> {
    Reinserted(Without(o, i), i, command)
  }

  ghost predicate Below(t: Table, i: JobId, p: int) {
    i in t && t[i].priority.Some? && t[i].priority.value < p
  }

  ghost predicate Above(t: Table, i: JobId, p: int) {
    i in t && t[i].priority.Some? && t[i].priority.value > p
  }

  /** p lies strictly between the priorities of rows[..k] and those of rows[k..]. */
  ghost predicate Separates(t: Table, rows: seq<JobId>, k: nat, p: int) {
    && k <= |rows|
    && (forall a | 0 <= a < k :: Below(t, rows[a], p))
    && (forall a | k <= a < |rows| :: Above(t, rows[a], p))
  }

  ghost predicate SlotFound(slot: Option<Slot>) {
    slot.Some? && slot.value.Slot?
  }

  /** A computed slot lies strictly between the rows before the position and those after. */
  lemma SlotSeparates(t: Table, rows: seq<JobId>, command: Command)
    requires forall a, b | 0 <= a < b < |rows| :: Before(t, rows[a], rows[b])
    requires forall a | 0 <= a < |rows| :: rows[a] in t
    requires !HasUnplaced(t, rows) && (command.After? ==> command.anchor in rows)
    requires SlotFound(ComputeSlot(t, rows, command))
    ensures Separates(t, rows, Position(rows, command), ComputeSlot(t, rows, command).value.at)
  {
    if command.After? { IndexOfFinds(rows, command.anchor); }
    var p, k := ComputeSlot(t, rows, command).value.at, Position(rows, command);
    forall a | 0 <= a < k ensures Below(t, rows[a], p) {
      assert PriorityAt(t, rows, a).Some?;
      if a < k - 1 { assert Before(t, rows[a], rows[k - 1]); }
    }
    forall a | k <= a < |rows| ensures Above(t, rows[a], p) {
      assert PriorityAt(t, rows, a).Some?;
      if k < a { assert Before(t, rows[k], rows[a]); }
    }
  }

  /** Only the listed rows matter to the slot. */
  lemma SlotReadsRows(t: Table, t': Table, rows: seq<JobId>, command: Command)
    requires forall k | 0 <= k < |rows| :: PriorityAt(t, rows, k) == PriorityAt(t', rows, k)
    ensures ComputeSlot(t, rows, command) == ComputeSlot(t', rows, command)
    ensures HasUnplaced(t, rows) == HasUnplaced(t', rows)
  {
    if command.After? { IndexOfFinds(rows, command.anchor); }
  }

  lemma SeparatedIsOrdered(t: Table, rows: seq<JobId>, i: JobId, k: nat, p: int)
    requires IsQueueOrder(t - {i}, rows) && Separates(t - {i}, rows, k, p)
    requires Active(t, i) && t[i].priority == Some(p)
    ensures IsQueueOrder(t, rows[..k] + [i] + rows[k..])
  {
    forall a | 0 <= a < k ensures Before(t, rows[a], i) { assert Below(t - {i}, rows[a], p); }
    forall a | k <= a < |rows| ensures Before(t, i, rows[a]) { assert Above(t - {i}, rows[a], p); }
    InsertedAt(t, rows, i, k);
  }

  /** The others keep their order and lose nobody. */
  lemma RowsWithout(t: Table, o: seq<JobId>, i: JobId)
    requires IsQueueOrder(t, o) && i in o
    ensures IsQueueOrder(t - {i}, Without(o, i)) && |Without(o, i)| == |o| - 1
    ensures forall j :: j in Without(o, i) <==> j in o && j != i
  {
    var k :| 0 <= k < |o| && o[k] == i;
    OrderHasNoDuplicates(t, o);
    WithoutCuts(o, i, k);
    DeletedAt(t, o, k);
    assert forall j | j in o :: Active(t, j);
    assert forall j | j in o && j != i :: Active(t - {i}, j);
    assert forall j | j in Without(o, i) :: Active(t - {i}, j);
  }

  lemma PlacingSeparates(t: Table, o: seq<JobId>, i: JobId, command: Command)
    requires IsQueueOrder(t, o) && !HasUnplaced(t, o) && i in o
    requires command.After? ==> command.anchor != i && command.anchor in o
    requires SlotFound(ComputeSlot(t, Without(o, i), command))
    ensures Separates(t - {i}, Without(o, i), Position(Without(o, i), command),
                      ComputeSlot(t, Without(o, i), command).value.at)
  {
    var rows := Without(o, i);
    RowsWithout(t, o, i);
    RowsStayPlaced(t, o, i);
    SlotReadsRows(t, t - {i}, rows, command);
    SlotSeparates(t - {i}, rows, command);
  }

  /** Writing the computed slot relocates the job and moves nothing else. */
  lemma PlacingRelocates(t: Table, o: seq<JobId>, i: JobId, command: Command)
    requires IsQueueOrder(t, o) && !HasUnplaced(t, o) && i in o && i in t
    requires command.After? ==> command.anchor != i && command.anchor in o
    requires SlotFound(ComputeSlot(t, Without(o, i), command))
    ensures var p := ComputeSlot(t, Without(o, i), command).value.at;
      Separates(t - {i}, Without(o, i), Position(Without(o, i), command), p) &&
      IsQueueOrder(t[i := t[i].(priority := Some(p))], Relocated(o, i, command))
  {
    PlacingSeparates(t, o, i, command);
    RowsWithout(t, o, i);
    var p := ComputeSlot(t, Without(o, i), command).value.at;
    assert Active(t, i);
    RewriteIsOrdered(t, t[i].(priority := Some(p)), Without(o, i), i, Position(Without(o, i), command), p);
  }

  lemma RewriteIsOrdered(t: Table, job: Job, rows: seq<JobId>, i: JobId, k: nat, p: int)
    requires i in t && Active(t[i := job], i) && job.priority == Some(p)
    requires IsQueueOrder(t - {i}, rows) && Separates(t - {i}, rows, k, p)
    ensures IsQueueOrder(t[i := job], rows[..k] + [i] + rows[k..])
  {
    assert t[i := job] - {i} == t - {i};
    SeparatedIsOrdered(t[i := job], rows, i, k, p);
  }

  lemma RowsStayPlaced(t: Table, o: seq<JobId>, i: JobId)
    requires IsQueueOrder(t, o) && i in o
    ensures var rows := Without(o, i);
      forall k | 0 <= k < |rows| :: PriorityAt(t, rows, k) == PriorityAt(t - {i}, rows, k)
    ensures !HasUnplaced(t, o) ==> !HasUnplaced(t, Without(o, i))
  {
    RowsWithout(t, o, i);
    var rows := Without(o, i);
    forall k | 0 <= k < |rows| ensures PriorityAt(t, rows, k) == PriorityAt(t - {i}, rows, k) &&
      (!HasUnplaced(t, o) ==> PriorityAt(t, rows, k).Some?)
    {
      assert Active(t - {i}, rows[k]) && rows[k] in rows;
      var a :| 0 <= a < |o| && o[a] == rows[k];
      assert PriorityAt(t, rows, k) == PriorityAt(t, o, a);
    }
  }

  lemma {:induction false} IndexOfAt(o: seq<JobId>, k: nat)
    requires NoDuplicates(o) && k < |o|
    ensures IndexOf(o, o[k]) == Some(k)
    decreases |o|
  {
    if k > 0 { IndexOfAt(o[1..], k - 1); }
  }

  /** What a renumber writes. */
  lemma RespacedRows(t: Table, o: seq<JobId>)
    requires IsQueueOrder(t, o)
    ensures forall k | 0 <= k < |o| ::
      o[k] in t && Respaced(t, o)[o[k]] == t[o[k]].(priority := Some(PRIORITY_START + k * PRIORITY_GAP))
    ensures forall j | j in t && j !in o :: Respaced(t, o)[j] == t[j]
  {
    OrderHasNoDuplicates(t, o);
    forall k | 0 <= k < |o| ensures o[k] in t &&
      Respaced(t, o)[o[k]] == t[o[k]].(priority := Some(PRIORITY_START + k * PRIORITY_GAP))
    {
      assert Active(t, o[k]);
      IndexOfAt(o, k);
    }
    forall j | j in t && j !in o ensures Respaced(t, o)[j] == t[j] { IndexOfFinds(o, j); }
  }

  /** A renumber never reorders, whatever the priorities were. */
  lemma RespacingKeepsOrder(t: Table, o: seq<JobId>)
    requires IsQueueOrder(t, o)
    ensures IsQueueOrder(Respaced(t, o), o) && !HasUnplaced(Respaced(t, o), o)
  {
    RespacedRows(t, o);
    var t' := Respaced(t, o);
    forall j | Active(t', j) ensures j in o {
      assert Active(t, j) by { if j in o { var k :| 0 <= k < |o| && o[k] == j; } }
    }
    forall k | 0 <= k < |o| ensures Active(t', o[k]) && PriorityAt(t', o, k).Some? {
      assert Active(t, o[k]);
    }
  }

  lemma AllocatedRelocates(t: Table, o: seq<JobId>, i: JobId, command: Command)
    requires IsQueueOrder(t, o) && i in o && i in t
    requires command.After? ==> command.anchor != i && command.anchor in o
    requires Allocate(t, o, i, command).Moved?
    ensures IsQueueOrder(Allocate(t, o, i, command).table, Relocated(o, i, command))
  {
    if Allocate(t, o, i, command).renumbered {
      RespacingKeepsOrder(t, o);
      PlacingRelocates(Respaced(t, o), o, i, command);
    } else {
      PlacingRelocates(t, o, i, command);
    }
  }

  /**
   * Every successful move, renumbered or not and from any priorities including ties and
   * nulls, makes the order the old one with the job taken out and put back where the
   * command says.
   */
  lemma MoveReorders(t: Table, i: JobId, command: Command)
    requires MoveTx(t, i, command).Moved?
    ensures OrderOf(MoveTx(t, i, command).table) == Relocated(OrderOf(t), i, command)
  {
    assert Active(t, i);
    AllocatedRelocates(t, OrderOf(t), i, command);
    var t' := MoveTx(t, i, command).table;
    OrderIsUnique(t', OrderOf(t'), Relocated(OrderOf(t), i, command));
  }

  /** Row j of the new table is row j of the old one, but for the priority if free. */
  ghost predicate SameBut(t: Table, t': Table, j: JobId, free: bool) {
    j in t && j in t' && t'[j] == t[j].(priority := t'[j].priority) && (!free ==> t'[j] == t[j])
  }

  lemma RespacedFrame(t: Table, o: seq<JobId>, j: JobId)
    requires IsQueueOrder(t, o) && j in t
    ensures Respaced(t, o).Keys == t.Keys && SameBut(t, Respaced(t, o), j, Active(t, j))
  {
    if j !in o { RespacedRows(t, o); }
  }

  lemma AllocatedFrame(t: Table, o: seq<JobId>, i: JobId, command: Command, j: JobId)
    requires IsQueueOrder(t, o) && i in t && j in t && Allocate(t, o, i, command).Moved?
    ensures var m := Allocate(t, o, i, command);
      m.table.Keys == t.Keys && SameBut(t, m.table, j, j == i || (m.renumbered && Active(t, j)))
  {
    RespacedFrame(t, o, j);
  }

  /** A move writes priorities only, and only of active rows; unrenumbered, of the job alone. */
  lemma MoveTouchesPrioritiesOnly(t: Table, i: JobId, command: Command, j: JobId)
    requires MoveTx(t, i, command).Moved? && j in t
    ensures var m := MoveTx(t, i, command);
      m.table.Keys == t.Keys && SameBut(t, m.table, j, j == i || (m.renumbered && Active(t, j)))
  {
    AllocatedFrame(t, OrderOf(t), i, command, j);
  }

  // -------------------------------------------------------------- capacity --

  /** The slot is past every other row. */
  predicate GoesLast(rows: seq<JobId>, command: Command) {
    command.Bottom? || (command.After? && Position(rows, command) == |rows|)
  }

  /** The first, gap-preserving attempt cannot be made or does not fit. */
  predicate NeedsGrid(t: Table, i: JobId, command: Command) {
    HasUnplaced(t, OrderOf(t)) || ComputeSlot(t, Without(OrderOf(t), i), command) == Some(Exhausted)
  }

  /** The k-th of the rows that stay on a fresh grid when its m-th row is taken out. */
  function GridSlot(k: int, m: nat): int {
    PRIORITY_START + (if k < m then k else k + 1) * PRIORITY_GAP
  }

  /** What ComputeSlot sees of a fresh grid from which row m was taken out. */
  lemma GridWithout(t: Table, o: seq<JobId>, m: nat)
    requires IsQueueOrder(t, o) && m < |o|
    ensures var rows := Without(o, o[m]);
      |rows| == |o| - 1 &&
      forall a | 0 <= a < |rows| ::
        PriorityAt(Respaced(t, o), rows, a) == Some(GridSlot(a, m))
  {
    RespacedRows(t, o);
    OrderHasNoDuplicates(t, o);
    WithoutCuts(o, o[m], m);
    var rows := Without(o, o[m]);
    assert forall a | 0 <= a < |rows| :: rows[a] == o[if a < m then a else a + 1];
  }

  /** On a fresh grid the slot always fits, except past the last of 65,537 rows. */
  lemma SlotOnGrid(t: Table, rows: seq<JobId>, m: nat, command: Command)
    requires m <= |rows| < GRID_CAPACITY
    requires forall a | 0 <= a < |rows| :: PriorityAt(t, rows, a) == Some(GridSlot(a, m))
    requires command.After? ==> command.anchor in rows
    ensures var slot := ComputeSlot(t, rows, command);
      if |rows| == GRID_CAPACITY - 1 && m < |rows| && GoesLast(rows, command) then slot == Some(Exhausted)
      else SlotFound(slot)
  {
    match command
    case Top =>
      if |rows| > 0 { assert PriorityAt(t, rows, 0) == Some(GridSlot(0, m)); }
    case Bottom =>
      if |rows| > 0 { assert PriorityAt(t, rows, |rows| - 1) == Some(GridSlot(|rows| - 1, m)); }
    case After(anchor) =>
      IndexOfFinds(rows, anchor);
      var k := IndexOf(rows, anchor).value;
      assert PriorityAt(t, rows, k) == Some(GridSlot(k, m));
      if k + 1 < |rows| { assert PriorityAt(t, rows, k + 1) == Some(GridSlot(k + 1, m)); }
  }

  lemma GridFits(count: nat)
    ensures RenumberedPriorities(count).None? <==> count > GRID_CAPACITY
  {}

  lemma RenumberCapacity(t: Table, o: seq<JobId>, m: nat, command: Command)
    requires IsQueueOrder(t, o) && m < |o| && o[m] in t
    requires command.After? ==> command.anchor in Without(o, o[m])
    ensures Renumbered(t, o, o[m], command).Unavailable? <==>
            (|o| > GRID_CAPACITY || (|o| == GRID_CAPACITY && m < |o| - 1 && GoesLast(Without(o, o[m]), command)))
  {
    GridFits(|o|);
    if |o| <= GRID_CAPACITY {
      GridWithout(t, o, m);
      SlotOnGrid(Respaced(t, o), Without(o, o[m]), m, command);
    }
  }

  lemma AllocateCapacity(t: Table, o: seq<JobId>, m: nat, command: Command)
    requires IsQueueOrder(t, o) && m < |o| && o[m] in t
    requires command.After? ==> command.anchor in Without(o, o[m])
    ensures Allocate(t, o, o[m], command).Unavailable? <==>
            ((HasUnplaced(t, o) || ComputeSlot(t, Without(o, o[m]), command) == Some(Exhausted)) &&
             (|o| > GRID_CAPACITY ||
              (|o| == GRID_CAPACITY && m < |o| - 1 && GoesLast(Without(o, o[m]), command))))
  {
    RenumberCapacity(t, o, m, command);
  }

  lemma WaitingCapacity(t: Table, o: seq<JobId>, i: JobId, command: Command)
    requires IsQueueOrder(t, o) && Active(t, i)
    requires command.After? ==> command.anchor != i && Active(t, command.anchor)
    ensures Allocate(t, o, i, command).Unavailable? <==>
            ((HasUnplaced(t, o) || ComputeSlot(t, Without(o, i), command) == Some(Exhausted)) &&
             (|o| > GRID_CAPACITY ||
              (|o| == GRID_CAPACITY && o[|o| - 1] != i && GoesLast(Without(o, i), command))))
  {
    var m :| 0 <= m < |o| && o[m] == i;
    OrderHasNoDuplicates(t, o);
    RowsWithout(t, o, i);
    AllocateCapacity(t, o, m, command);
  }

  /**
   * Exactly when a move is refused for lack of priority space. With at most 65,536 active
   * rows it never is; with 65,537 only a row that is not last and is sent to the end is.
   */
  lemma MoveCapacity(t: Table, i: JobId, command: Command)
    ensures var o := OrderOf(t);
      MoveTx(t, i, command).Unavailable? <==>
        (Refusal(t, i, command).None? && NeedsGrid(t, i, command) &&
         (|o| > GRID_CAPACITY ||
          (|o| == GRID_CAPACITY && o[|o| - 1] != i && GoesLast(Without(o, i), command))))
  {
    if Refusal(t, i, command).None? { WaitingCapacity(t, OrderOf(t), i, command); }
  }

  lemma SmallQueuesAlwaysMove(t: Table, i: JobId, command: Command)
    requires |OrderOf(t)| <= 65_536
    ensures !MoveTx(t, i, command).Unavailable?
  {
    MoveCapacity(t, i, command);
  }
}
