/**
 * No lost wake-up: a QUEUED or RUNNING row always has something that will carry it on. The
 * events that let go of a row are named one by one, and the theorem is exact: in an orderly
 * run a row stays carried if and only if none of them happens to it.
 */
module ProtocolWakeup {
  import opened Domain
  import opened DownloadProtocol
  import opened ProtocolAlways
  import opened ProtocolOwnership

  // --------------------------------------------------------- being carried --

  ghost predicate Owed(st: JobStatus) { st == QUEUED || st == RUNNING }

  /** This actor's next write puts an execution there or moves the row on. */
  ghost predicate Carrier(actor: Actor, st: JobStatus) {
    match actor
    case Enqueuer(_, pc) => (pc == EnqueueAdd || pc == CompensateRow) && st == QUEUED
    case Canceller(_, pc) => pc == CancelCas && st == QUEUED
    case Pauser(_, pc) => pc == PauseCas && st == QUEUED
    case Resumer(_, pc) => (pc == ResumeAdd || pc == ResumeRestore) && st == QUEUED
    case RowHealer(_, _, pc) => pc == HealAdd && st == QUEUED
    case Verdict(_, _) => PendingVerdict(actor)
    case _ => false
  }

  /** The call leaves and BullMQ will not retry it, or its row is settled. */
  predicate Gone(p: Actor) {
    p.Proc? &&
    match p.pc
    case ReturnVideo => true
    case Cleanup(x) => x != Throw || LastAttempt(p)
    case Leave(x) => x != Throw || LastAttempt(p)
    case Settle(x) => x != Throw || LastAttempt(p)
    case _ => false
  }

  /** The call will claim the row, settle it, or have BullMQ retry it. */
  ghost predicate ProcCarries(p: Actor, st: JobStatus) {
    p.Proc? && !Gone(p) && (p.pc.ReadVideo? || p.pc.Register? || p.pc.Claim? ==> st == QUEUED || p.started > 1)
  }

  ghost predicate ExecCarries(x: Exec, st: JobStatus, owner: Option<Actor>) {
    match x.life
    case Pending => st == QUEUED || x.started >= 1
    case Doomed => true
    case Active(_) => owner.None? || ProcCarries(owner.value, st)
  }

  function Owner(s: State, x: Exec): Option<Actor> {
    if x.life.Active? then Lookup(s.actors, x.life.owner) else None
  }

  ghost predicate CarriedBy(s: State, a: ActorId, r: RowId) {
    a in s.actors && RowActor(s.actors[a]) && s.actors[a].row == r && Carrier(s.actors[a], Status(s, r))
  }

  ghost predicate CarriedByExec(s: State, r: RowId) {
    r in s.execs && ExecCarries(s.execs[r], Status(s, r), Owner(s, s.execs[r]))
  }

  ghost predicate Carried(s: State, r: RowId) {
    r in s.rows && Owed(s.rows[r].status) ==> CarriedByExec(s, r) || exists a :: CarriedBy(s, a, r)
  }

  // ----------------------------------------------------------- letting go --

  /** This step leaves the row to nobody, unless another actor stands by. */
  predicate Drops(actor: Actor, w: View, owner: Option<Actor>, c: Choice) {
    match actor
    case Proc(_, _, _, pc, _, _) =>
      // a drain hands the row back; the abort cannot remove staging; a fault uses up the last attempt
      pc == Abort(Shutdown) || (pc == Abort(Cancel) && c.Bad?) ||
      (pc.Session? && c.Bad? && LastAttempt(actor)) ||
      (pc.Rechain? && c.Bad? && LastAttempt(actor) && (w.status == QUEUED || w.status == RUNNING))
    case Canceller(_, pc) => pc == CancelRemove && RemovesRetry(w, c)
    case Pauser(_, pc) => pc == PauseRemove && RemovesRetry(w, c)
    case Resumer(_, pc) => pc == ResumeAdd && AddIsSwallowed(w, owner, c)
    case Enqueuer(_, pc) => pc == EnqueueAdd && AddIsSwallowed(w, owner, c)
    case _ => false
  }

  /** The add meets the execution of a call that is leaving. */
  predicate AddIsSwallowed(w: View, owner: Option<Actor>, c: Choice) {
    c.Good? && w.status == QUEUED && w.exec.Some? && owner.Some? && Gone(owner.value)
  }

  /** The command read the row QUEUED; since then it has run and only its retry is left. */
  predicate RemovesRetry(w: View, c: Choice) {
    c.Good? && w.status == RUNNING && w.exec.Some? && !w.exec.value.life.Active?
  }

  function StatusAfterDrop(actor: Actor, st: JobStatus): JobStatus {
    if actor.Proc? && actor.pc == Abort(Shutdown) then QUEUED else st
  }

  /** The event lets go of row r: it drops it, or a crash kills whoever carried it, and nobody stands by. */
  ghost predicate LetsGo(s: State, e: Event, r: RowId)
    requires Enabled(s, e)
  {
    r in s.rows &&
    match e
    case Step(a, c) =>
      var actor := s.actors[a];
      RowActor(actor) && actor.row == r &&
      Drops(actor, Look(s, r), if r in s.execs then Owner(s, s.execs[r]) else None, c) &&
      !exists b :: b != a && StandsBy(s, b, r, StatusAfterDrop(actor, Status(s, r)))
    case CrashApi =>
      Owed(Status(s, r)) && !CarriedByExec(s, r) &&
      !exists b :: b in s.actors && !OnApi(s.actors[b]) && StandsBy(s, b, r, Status(s, r))
    case CrashWorker =>
      Owed(Status(s, r)) && !(r in s.execs && ExecCarries(s.execs[r], Status(s, r), None)) &&
      !exists b :: b in s.actors && !OnWorker(s.actors[b]) && StandsBy(s, b, r, Status(s, r))
    case _ => false
  }

  ghost predicate StandsBy(s: State, b: ActorId, r: RowId, st: JobStatus) {
    b in s.actors && RowActor(s.actors[b]) && s.actors[b].row == r && Carrier(s.actors[b], st)
  }

  // ------------------------------------------------------------ invariants --

  /** Activations are counted from one, and a transient failure is not the last attempt. */
  ghost predicate Counts(p: Actor) {
    p.Proc? ==> p.started >= 1 && (p.pc.Requeue? ==> !LastAttempt(p))
  }

  /** An execution in progress names a call on its row. */
  ghost predicate OwnersAreProcs(s: State) {
    forall r | r in s.execs && s.execs[r].life.Active? && s.execs[r].life.owner in s.actors ::
      s.actors[s.execs[r].life.owner].Proc? && s.actors[s.execs[r].life.owner].row == r
  }

  ghost predicate Wakeful(s: State) {
    Inv(s) && OwnersAreProcs(s) && forall a | a in s.actors :: Counts(s.actors[a])
  }

  lemma ActCounts(a: ActorId, actor: Actor, w: View, rivals: bool, c: Choice)
    requires RowActor(actor) && Counts(actor)
    ensures var e := Act(a, actor, w, rivals, c);
      e.actor.Some? ==> e.actor.value.Proc? == actor.Proc? && Counts(e.actor.value)
  {}

  lemma ApplyKeepsOwners(s: State, a: ActorId, r: RowId, e: Effect)
    requires Allocated(s) && Grounded(s) && AllHold(s) && OwnersAreProcs(s) && r in s.rows
    requires a in s.actors && RowActor(s.actors[a]) && s.actors[a].row == r
    requires e.actor.Some? ==>
      e.actor.value.Proc? == s.actors[a].Proc? && RowActor(e.actor.value) && e.actor.value.row == r
    requires e.view.exec.Some? && e.view.exec.value.life.Active? ==> Lookup(s.execs, r) == e.view.exec
    ensures OwnersAreProcs(Apply(s, a, r, e))
  {}

  lemma RowStepStaysWakeful(s: State, a: ActorId, c: Choice)
    requires Wakeful(s) && Enabled(s, Step(a, c)) && RowActor(s.actors[a])
    ensures var t := Next(s, Step(a, c)); OwnersAreProcs(t) && forall b | b in t.actors :: Counts(t.actors[b])
  {
    var actor := s.actors[a];
    var w, rivals := Look(s, actor.row), Rivals(s, actor.row);
    var t := Next(s, Step(a, c));
    ActCounts(a, actor, w, rivals, c);
    ActStaysOnRow(a, actor, w, rivals, c);
    ActActivatesNothing(a, actor, w, rivals, c);
    ApplyKeepsOwners(s, a, actor.row, Act(a, actor, w, rivals, c));
    ApplyOwn(s, a, actor.row, Act(a, actor, w, rivals, c));
    forall b | b in t.actors ensures Counts(t.actors[b]) {
      if b in s.actors && b != a { ActorFrame(s, Step(a, c), b); }
    }
  }

  lemma OtherEventsKeepOwners(s: State, e: Event)
    requires Allocated(s) && AllHold(s) && OwnersAreProcs(s) && Enabled(s, e) &&
        (e.Step? ==> !RowActor(s.actors[e.actor]))
    ensures OwnersAreProcs(Next(s, e))
  {}

  lemma OtherEventsCount(s: State, e: Event)
    requires Allocated(s) && Enabled(s, e) && (e.Step? ==> !RowActor(s.actors[e.actor]))
    requires forall a | a in s.actors :: Counts(s.actors[a])
    ensures forall a | a in Next(s, e).actors :: Counts(Next(s, e).actors[a])
  {
    forall b | b in Next(s, e).actors ensures Counts(Next(s, e).actors[b]) {
      if b in s.actors { ActorFrame(s, e, b); }
    }
  }

  lemma EventStaysWakeful(s: State, e: Event)
    requires Wakeful(s) && Enabled(s, e) && Orderly(s, e)
    ensures Wakeful(Next(s, e))
  {
    EventKeepsInv(s, e);
    if e.Step? && RowActor(s.actors[e.actor]) {
      RowStepStaysWakeful(s, e.actor, e.choice);
    } else {
      OtherEventsKeepOwners(s, e);
      OtherEventsCount(s, e);
    }
  }

  // ------------------------------------------------------------ scalar steps --

  /** The execution of the row carries it. */
  ghost predicate Runs(exec: Option<Exec>, st: JobStatus, owner: Option<Actor>) {
    exec.Some? && ExecCarries(exec.value, st, owner)
  }

  /** The owner of the execution after a step of actor a. */
  ghost function OwnerAfter(a: ActorId, w: View, e: Effect, owner: Option<Actor>): Option<Actor> {
    if e.view.exec.None? || !e.view.exec.value.life.Active? then None
    else if e.view.exec.value.life == Active(a) then e.actor else owner
  }

  /** What is known of an execution's owner. */
  ghost predicate OwnerIs(a: ActorId, actor: Actor, w: View, owner: Option<Actor>, phase: Phase) {
    && (owner.Some? ==> w.exec.Some? && w.exec.value.life.Active? && owner.value.Proc? && phase == Up)
    && (w.exec.Some? && w.exec.value.life == Active(a) ==> owner == Some(actor))
  }

  /** A step that does not drop its row: whatever its author or the execution carried is carried on. */
  lemma StepCarries(a: ActorId, actor: Actor, w: View, rivals: bool, phase: Phase, c: Choice, owner: Option<Actor>)
    requires RowActor(actor) && Holds(a, actor, w, phase) && Counts(actor) && OwnerIs(a, actor, w, owner, phase)
    requires !Drops(actor, w, owner, c)
    ensures var e := Act(a, actor, w, rivals, c);
      Owed(e.view.status) &&
      (e.view.status != w.status || Runs(w.exec, w.status, owner) || Carrier(actor, w.status)) ==>
        Runs(e.view.exec, e.view.status, OwnerAfter(a, w, e, owner)) ||
        (e.actor.Some? && Carrier(e.actor.value, e.view.status))
  {}

  /** A step that drops its row leaves neither an execution nor its author to carry it. */
  lemma DropCarriesNothing(a: ActorId, actor: Actor, w: View, rivals: bool, phase: Phase, c: Choice,
          owner: Option<Actor>)
    requires RowActor(actor) && Holds(a, actor, w, phase) && Counts(actor) && OwnerIs(a, actor, w, owner, phase)
    requires Drops(actor, w, owner, c)
    ensures var e := Act(a, actor, w, rivals, c);
      && e.view.status == StatusAfterDrop(actor, w.status) && e.message.None?
      && !Runs(e.view.exec, e.view.status, OwnerAfter(a, w, e, owner))
      && (e.actor.Some? ==> !Carrier(e.actor.value, e.view.status))
  {}

  // -------------------------------------------------------------- row steps --

  /** What a row's next step can know of the owner of its execution. */
  function OwnerOf(s: State, r: RowId): Option<Actor> {
    if r in s.execs then Owner(s, s.execs[r]) else None
  }

  lemma OwnerIsKnown(s: State, a: ActorId)
    requires Wakeful(s) && a in s.actors && RowActor(s.actors[a])
    ensures OwnerIs(a, s.actors[a], Look(s, s.actors[a].row), OwnerOf(s, s.actors[a].row), s.phase)
  {
    var r := s.actors[a].row;
    if OwnerOf(s, r).Some? {
      var p := s.execs[r].life.owner;
      assert Holds(p, s.actors[p], Look(s, r), s.phase);
    }
  }

  lemma ExecAfter(s: State, a: ActorId, r: RowId, e: Effect)
    requires Allocated(s) && Grounded(s) && AllHold(s) && r in s.rows && a in s.actors
    requires e.view.exec.Some? && e.view.exec.value.life.Active? ==> Lookup(s.execs, r) == e.view.exec
    ensures CarriedByExec(Apply(s, a, r, e), r) <==>
      Runs(e.view.exec, e.view.status, OwnerAfter(a, Look(s, r), e, OwnerOf(s, r)))
  {
    var t := Apply(s, a, r, e);
    LookAfter(s, a, r, e, r);
    if e.view.exec.Some? && e.view.exec.value.life.Active? {
      var p := e.view.exec.value.life.owner;
      assert p < s.clock;
      ApplyOwn(s, a, r, e);
      if p != a && p in s.actors { ApplyFrame(s, a, r, e, p); }
      assert Lookup(t.actors, p) == if p == a then e.actor else Lookup(s.actors, p);
    }
  }

  lemma CarriersAfter(s: State, a: ActorId, r: RowId, e: Effect)
    requires Allocated(s) && Grounded(s) && r in s.rows && a in s.actors
    requires e.actor.Some? ==> RowActor(e.actor.value) && e.actor.value.row == r
    ensures CarriedBy(Apply(s, a, r, e), a, r) <==> e.actor.Some? && Carrier(e.actor.value, e.view.status)
    ensures forall b | b != a :: CarriedBy(Apply(s, a, r, e), b, r) <==> StandsBy(s, b, r, e.view.status)
  {
    var t := Apply(s, a, r, e);
    LookAfter(s, a, r, e, r);
    ApplyOwn(s, a, r, e);
    forall b | b != a ensures CarriedBy(t, b, r) <==> StandsBy(s, b, r, e.view.status) {
      if b in s.actors { ApplyFrame(s, a, r, e, b); }
    }
  }

  /** Who carries a row after a step on it: its execution, the step's author, or whoever stands by. */
  lemma CarriedAfter(s: State, a: ActorId, r: RowId, e: Effect)
    requires Allocated(s) && Grounded(s) && AllHold(s) && r in s.rows && a in s.actors
    requires e.actor.Some? ==> RowActor(e.actor.value) && e.actor.value.row == r
    requires e.view.exec.Some? && e.view.exec.value.life.Active? ==> Lookup(s.execs, r) == e.view.exec
    ensures Carried(Apply(s, a, r, e), r) <==>
      (Owed(e.view.status) ==>
        || Runs(e.view.exec, e.view.status, OwnerAfter(a, Look(s, r), e, OwnerOf(s, r)))
        || (e.actor.Some? && Carrier(e.actor.value, e.view.status))
        || exists b :: b != a && StandsBy(s, b, r, e.view.status))
  {
    var t := Apply(s, a, r, e);
    LookAfter(s, a, r, e, r);
    ExecAfter(s, a, r, e);
    CarriersAfter(s, a, r, e);
    assert Status(t, r) == e.view.status && r in t.rows;
    if b :| CarriedBy(t, b, r) { assert b != a ==> StandsBy(s, b, r, e.view.status); }
    if b :| b != a && StandsBy(s, b, r, e.view.status) { assert CarriedBy(t, b, r); }
  }

  /** On its own row a step keeps the row carried unless it drops it with nobody standing by. */
  lemma OwnRowCarries(s: State, a: ActorId, c: Choice)
    requires Wakeful(s) && Enabled(s, Step(a, c)) && RowActor(s.actors[a]) && Carried(s, s.actors[a].row)
    ensures Carried(Next(s, Step(a, c)), s.actors[a].row) <==> !LetsGo(s, Step(a, c), s.actors[a].row)
  {
    var actor := s.actors[a];
    var r := actor.row;
    var w, rivals, owner := Look(s, r), Rivals(s, r), OwnerOf(s, r);
    var e := Act(a, actor, w, rivals, c);
    ActStaysOnRow(a, actor, w, rivals, c);
    ActActivatesNothing(a, actor, w, rivals, c);
    OwnerIsKnown(s, a);
    assert Holds(a, actor, w, s.phase);
    CarriedAfter(s, a, r, e);
    if Drops(actor, w, owner, c) {
      DropCarriesNothing(a, actor, w, rivals, s.phase, c, owner);
    } else {
      StepCarries(a, actor, w, rivals, s.phase, c, owner);
      if Owed(e.view.status) && e.view.status == w.status &&
         !Runs(w.exec, w.status, owner) && !Carrier(actor, w.status) {
        var b :| CarriedBy(s, b, r);
        assert b != a && StandsBy(s, b, r, e.view.status);
      }
    }
  }

  /** On another row nothing a step does matters. */
  lemma OtherRowsStayCarried(s: State, a: ActorId, r: RowId, e: Effect, o: RowId)
    requires Wakeful(s) && r in s.rows && o in s.rows && o != r && Carried(s, o)
    requires a in s.actors && RowActor(s.actors[a]) && s.actors[a].row == r
    requires e.actor.Some? ==> RowActor(e.actor.value) && e.actor.value.row == r
    ensures Carried(Apply(s, a, r, e), o)
  {
    var t := Apply(s, a, r, e);
    LookAfter(s, a, r, e, o);
    if Owed(s.rows[o].status) {
      if CarriedByExec(s, o) {
        assert t.execs[o] == s.execs[o];
        assert Owner(t, t.execs[o]) == Owner(s, s.execs[o]);
      } else {
        var b :| CarriedBy(s, b, o);
        ApplyFrame(s, a, r, e, b);
        assert CarriedBy(t, b, o);
      }
    }
  }

  // ------------------------------------------------------------ other events --

  lemma FireVerdictCarries(s: State, r: RowId)
    requires Allocated(s) && Grounded(s) && Enabled(s, FireVerdict(r))
    ensures CarriedBy(Next(s, FireVerdict(r)), s.clock, r)
  {}

  lemma ActivateCarries(s: State, r: RowId)
    requires Allocated(s) && Enabled(s, Activate(r)) && r in s.rows && CarriedByExec(s, r)
    ensures CarriedByExec(Next(s, Activate(r)), r)
  {
    assert Owner(Next(s, Activate(r)), Next(s, Activate(r)).execs[r]) ==
      Some(Proc(r, s.execs[r].started + 1, s.execs[r].failures, ReadVideo, None, None));
  }

  /** An execution that stays as it is keeps its owner, or loses it to a crash. */
  lemma OwnerFrame(s: State, e: Event, o: RowId)
    requires Allocated(s) && AllHold(s) && Enabled(s, e) && (e.Step? ==> !RowActor(s.actors[e.actor]))
    requires o in s.rows && CarriedByExec(s, o)
    requires o in Next(s, e).execs && Next(s, e).execs[o] == s.execs[o]
    ensures CarriedByExec(Next(s, e), o)
  {
    OtherEventsRows(s, e);
    if s.execs[o].life.Active? {
      var p := s.execs[o].life.owner;
      if p !in s.actors {
        DeadStaysDead(s, e, p);
      } else if p in Next(s, e).actors {
        ActorFrame(s, e, p);
      }
    }
  }

  lemma ExecCarriesOn(s: State, e: Event, o: RowId)
    requires Wakeful(s) && Enabled(s, e) && (e.Step? ==> !RowActor(s.actors[e.actor]))
    requires o in s.rows && CarriedByExec(s, o)
    ensures CarriedByExec(Next(s, e), o) || exists a :: CarriedBy(Next(s, e), a, o)
  {
    if e == FireVerdict(o) {
      FireVerdictCarries(s, o);
    } else if e == Activate(o) {
      ActivateCarries(s, o);
    } else {
      OtherEventsExecs(s, e);
      if e == Stall(o) { assert Next(s, e).execs[o].life == Doomed; } else { OwnerFrame(s, e, o); }
    }
  }

  /** A carrier that survives the event carries on. */
  lemma CarrierFrame(s: State, e: Event, b: ActorId, o: RowId)
    requires Allocated(s) && Enabled(s, e) && (e.Step? ==> !RowActor(s.actors[e.actor]))
    requires o in s.rows && CarriedBy(s, b, o) && b in Next(s, e).actors
    ensures CarriedBy(Next(s, e), b, o)
  {
    OtherEventsRows(s, e);
    ActorFrame(s, e, b);
  }

  /** Away from crashes nobody who carries a row disappears. */
  lemma OtherEventsCarry(s: State, e: Event, o: RowId)
    requires Wakeful(s) && Enabled(s, e) && (e.Step? ==> !RowActor(s.actors[e.actor]))
    requires !e.CrashApi? && !e.CrashWorker? && o in s.rows && Carried(s, o)
    ensures Carried(Next(s, e), o)
  {
    OtherEventsRows(s, e);
    if Owed(s.rows[o].status) {
      if CarriedByExec(s, o) {
        ExecCarriesOn(s, e, o);
      } else {
        var b :| CarriedBy(s, b, o);
        CarrierFrame(s, e, b, o);
      }
    }
  }

  /** What is left after a crash: the executions, now without the dead calls, and the surviving actors. */
  lemma CrashCarries(s: State, e: Event, o: RowId)
    requires Wakeful(s) && Enabled(s, e) && (e.CrashApi? || e.CrashWorker?) && o in s.rows && Carried(s, o)
    ensures Carried(Next(s, e), o) <==> !LetsGo(s, e, o)
  {
    var t := Next(s, e);
    CrashLeavesExec(s, e, o);
    forall b ensures CarriedBy(t, b, o) <==>
      b in s.actors && !(if e.CrashApi? then OnApi(s.actors[b]) else OnWorker(s.actors[b])) &&
      StandsBy(s, b, o, Status(s, o)) {}
  }

  lemma CrashLeavesExec(s: State, e: Event, o: RowId)
    requires Wakeful(s) && Enabled(s, e) && (e.CrashApi? || e.CrashWorker?) && o in s.rows
    ensures CarriedByExec(Next(s, e), o) <==>
      if e.CrashApi? then CarriedByExec(s, o) else o in s.execs && ExecCarries(s.execs[o], Status(s, o), None)
  {
    var t := Next(s, e);
    if o in s.execs && s.execs[o].life.Active? {
      assert Owner(t, t.execs[o]) == if e.CrashApi? then Owner(s, s.execs[o]) else None;
    }
  }

  lemma NewRowIsCarried(s: State, e: Event, o: RowId)
    requires Wakeful(s) && Enabled(s, e) && o !in s.rows
    ensures Carried(Next(s, e), o)
  {
    if e.Step? {
      StepAdvances(s, e.actor, e.choice);
    } else if e.EnqueueVideo? {
      assert CarriedBy(Next(s, e), s.clock + 1, s.clock);
    }
  }

  // ------------------------------------------------------------ main results --

  /** One event leaves a carried row to nobody if and only if it lets go of it. */
  lemma EventCarriesExactly(s: State, e: Event, o: RowId)
    requires Wakeful(s) && Enabled(s, e) && Carried(s, o)
    ensures Carried(Next(s, e), o) <==> !LetsGo(s, e, o)
  {
    if o !in s.rows {
      NewRowIsCarried(s, e, o);
    } else if e.Step? && RowActor(s.actors[e.actor]) {
      var actor := s.actors[e.actor];
      if o == actor.row {
        OwnRowCarries(s, e.actor, e.choice);
      } else {
        var w, rivals := Look(s, actor.row), Rivals(s, actor.row);
        ActStaysOnRow(e.actor, actor, w, rivals, e.choice);
        OtherRowsStayCarried(s, e.actor, actor.row, Act(e.actor, actor, w, rivals, e.choice), o);
      }
    } else if e.CrashApi? || e.CrashWorker? {
      CrashCarries(s, e, o);
    } else {
      OtherEventsCarry(s, e, o);
    }
  }

  /** r is carried in every state the run passes through. */
  ghost predicate AlwaysCarried(s: State, events: seq<Event>, r: RowId)
    requires IsRun(s, events)
    decreases |events|
  {
    Carried(s, r) && (events == [] || AlwaysCarried(Next(s, events[0]), events[1..], r))
  }

  ghost predicate NeverLetGo(s: State, events: seq<Event>, r: RowId)
    requires IsRun(s, events)
    decreases |events|
  {
    events == [] || (!LetsGo(s, events[0], r) && NeverLetGo(Next(s, events[0]), events[1..], r))
  }

  lemma {:induction false} CarriedExactly(s: State, events: seq<Event>, r: RowId)
    requires Wakeful(s) && Carried(s, r) && IsOrderlyRun(s, events)
    ensures IsRun(s, events)
    ensures AlwaysCarried(s, events, r) <==> NeverLetGo(s, events, r)
    decreases |events|
  {
    if events != [] {
      EventStaysWakeful(s, events[0]);
      EventCarriesExactly(s, events[0], r);
      RunKeepsInv(Next(s, events[0]), events[1..]);
      if Carried(Next(s, events[0]), r) {
        CarriedExactly(Next(s, events[0]), events[1..], r);
      } else {
        assert !AlwaysCarried(Next(s, events[0]), events[1..], r);
      }
    }
  }

  /**
   * No lost wake-up, exactly: in an orderly run, with any overlap of owner commands, a
   * QUEUED or RUNNING row always has an execution that will claim, settle, retry or fail it,
   * or an actor whose next write does, if and only if no event lets go of it: a drain or a
   * session fault on the last attempt, a command's remove that meets a RUNNING row's
   * pending retry, a resume's add that is swallowed by a leaving call, or a crash of
   * whoever carried the row, each with nobody else standing by.
   */
  lemma EveryRowIsCarried(s: State, events: seq<Event>, r: RowId)
    requires Initial(s) && IsOrderlyRun(s, events)
    ensures IsRun(s, events)
    ensures AlwaysCarried(s, events, r) <==> NeverLetGo(s, events, r)
  {
    InitialInv(s);
    CarriedExactly(s, events, r);
  }

  /** The boot sweep's visit to a row, undisturbed: check, CAS if it was RUNNING, add. */
  function Visit(a: ActorId, r: RowId, seen: JobStatus): seq<Event> {
    [HealRow(r)] + ([Step(a, Good)] + Repair(a, seen))
  }

  /** The visit after its check. */
  function Repair(a: ActorId, seen: JobStatus): seq<Event> {
    if seen == RUNNING then [Step(a, Good), Step(a, Good)] else [Step(a, Good)]
  }

  /** The sweep's call a on row r in the middle of its visit. */
  ghost predicate Visiting(s: State, a: ActorId, r: RowId, seen: JobStatus, hpc: HealPc) {
    Grounded(s) && a in s.actors && s.actors[a] == RowHealer(r, seen, hpc) && r in s.rows && r !in s.execs &&
    s.rows[r].status == (if hpc == HealAdd then QUEUED else seen)
  }

  lemma VisitStarts(s: State, r: RowId, seen: JobStatus)
    requires Grounded(s) && s.phase == Booting && r in s.rows && r !in s.execs && s.rows[r].status == seen && Owed(seen)
    ensures Enabled(s, HealRow(r)) && Visiting(Next(s, HealRow(r)), s.clock, r, seen, HealCheck)
  {}

  lemma VisitSteps(s: State, a: ActorId, r: RowId, seen: JobStatus, hpc: HealPc)
    requires Visiting(s, a, r, seen, hpc) && (hpc == HealCas ==> seen == RUNNING) && Owed(seen)
    ensures Enabled(s, Step(a, Good))
    ensures var t := Next(s, Step(a, Good));
      match hpc
      case HealCheck => Visiting(t, a, r, seen, if seen == RUNNING then HealCas else HealAdd)
      case HealCas => Visiting(t, a, r, seen, HealAdd)
      case HealAdd => r in t.rows && t.rows[r].status == QUEUED && r in t.execs && t.execs[r] == Exec(Pending, 0, 0)
  {
    EventKeepsGrounded(s, Step(a, Good));
  }

  lemma AndThen(s: State, e: Event, rest: seq<Event>)
    requires Enabled(s, e) && IsRun(Next(s, e), rest)
    ensures IsRun(s, [e] + rest) && After(s, [e] + rest) == After(Next(s, e), rest)
  {
    assert ([e] + rest)[1..] == rest;
  }

  lemma VisitEnds(s: State, a: ActorId, r: RowId, seen: JobStatus)
    requires Visiting(s, a, r, seen, HealAdd) && Owed(seen)
    ensures IsRun(s, [Step(a, Good)]) && Recovered(After(s, [Step(a, Good)]), r)
  {
    VisitSteps(s, a, r, seen, HealAdd);
    assert IsRun(Next(s, Step(a, Good)), []);
    AndThen(s, Step(a, Good), []);
    assert [Step(a, Good)] + [] == [Step(a, Good)];
  }

  ghost predicate Recovered(s: State, r: RowId) {
    r in s.rows && s.rows[r].status == QUEUED && r in s.execs && s.execs[r] == Exec(Pending, 0, 0)
  }

  lemma RecoveredIsCarried(s: State, r: RowId)
    requires Recovered(s, r)
    ensures Carried(s, r)
  {}

  lemma VisitRepairs(s: State, a: ActorId, r: RowId)
    requires Visiting(s, a, r, RUNNING, HealCas)
    ensures IsRun(s, [Step(a, Good), Step(a, Good)]) && Recovered(After(s, [Step(a, Good), Step(a, Good)]), r)
  {
    VisitSteps(s, a, r, RUNNING, HealCas);
    VisitEnds(Next(s, Step(a, Good)), a, r, RUNNING);
    AndThen(s, Step(a, Good), [Step(a, Good)]);
    assert [Step(a, Good)] + [Step(a, Good)] == [Step(a, Good), Step(a, Good)];
  }

  lemma CheckThenRepair(s: State, a: ActorId, r: RowId, seen: JobStatus)
    requires Visiting(s, a, r, seen, HealCheck) && Owed(seen)
    ensures IsRun(s, [Step(a, Good)] + Repair(a, seen)) && Recovered(After(s, [Step(a, Good)] + Repair(a, seen)), r)
  {
    VisitSteps(s, a, r, seen, HealCheck);
    var t := Next(s, Step(a, Good));
    if seen == RUNNING { VisitRepairs(t, a, r); } else { VisitEnds(t, a, r, seen); }
    AndThen(s, Step(a, Good), Repair(a, seen));
  }

  /**
   * What was let go the boot sweep picks up: its visit to a QUEUED or RUNNING row without
   * an execution leaves the row QUEUED with a fresh one, and so carried.
   */
  lemma SweepRecovers(s: State, r: RowId, seen: JobStatus)
    requires Grounded(s) && s.phase == Booting && r in s.rows && r !in s.execs && s.rows[r].status == seen && Owed(seen)
    ensures IsRun(s, Visit(s.clock, r, seen))
    ensures Recovered(After(s, Visit(s.clock, r, seen)), r) && Carried(After(s, Visit(s.clock, r, seen)), r)
  {
    var a := s.clock;
    VisitStarts(s, r, seen);
    CheckThenRepair(Next(s, HealRow(r)), a, r, seen);
    AndThen(s, HealRow(r), [Step(a, Good)] + Repair(a, seen));
    RecoveredIsCarried(After(s, Visit(a, r, seen)), r);
  }
}
