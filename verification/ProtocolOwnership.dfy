/**
 * Who owns a row, in every run that keeps two scheduling assumptions: an execution is
 * declared stalled only once its processor is dead, and no execution is added under a row's
 * id while a stall verdict on that row is between its read and its write.
 */
module ProtocolOwnership {
  import opened Domain
  import opened JobStatusCas
  import opened DownloadProtocol
  import opened ProtocolAlways
  import opened ProtocolExclusion
  import opened ProtocolVideos

  // ------------------------------------------------------- the assumptions --

  /** The stall verdict has not written the row yet. */
  ghost predicate PendingVerdict(actor: Actor) {
    actor.Verdict? && (actor.vpc == VerdictRead || actor.vpc == VerdictFail)
  }

  /** The api is about to add an execution. */
  predicate AboutToAdd(actor: Actor) {
    (actor.Resumer? && actor.rpc == ResumeAdd) || (actor.Enqueuer? && actor.epc == EnqueueAdd)
  }

  ghost predicate VerdictIsQuick(s: State, e: Event) {
    e.Step? && e.actor in s.actors && AboutToAdd(s.actors[e.actor]) ==>
      forall a | a in s.actors && PendingVerdict(s.actors[a]) :: s.actors[a].row != s.actors[e.actor].row
  }

  ghost predicate Orderly(s: State, e: Event) {
    StallIsDeath(s, e) && VerdictIsQuick(s, e)
  }

  ghost predicate IsOrderlyRun(s: State, events: seq<Event>)
    decreases |events|
  {
    events == [] ||
    (Enabled(s, events[0]) && Orderly(s, events[0]) && IsOrderlyRun(Next(s, events[0]), events[1..]))
  }

  // ------------------------------------------------------- local invariants --

  /** Between its claim and the write that settles its row. */
  ghost predicate Working(pc: ProcPc) {
    pc.Begin? || pc.Recheck? || pc.Refuse? || pc.Session? || pc.Work? || pc.Publish? || pc.Chain? ||
    pc.Finish? || pc.Abort? || pc.FailVideo? || pc.FailRow? || pc.Requeue?
  }

  ghost predicate ProcHolds(a: ActorId, p: Actor, w: View)
    requires p.Proc?
  {
    && w.exec == Some(Exec(Active(a), p.started, p.failures))
    && (Registered(p.pc) ==> w.entry == Some(a))
    && (Working(p.pc) ==> w.status == RUNNING && p.outcome == Some(RUNNING))
    && (p.pc.Claim? || p.pc.Register? || p.pc.ReadVideo? ==> p.outcome == None)
    && (p.pc.ReturnVideo? ==> p.outcome == Some(CANCELED))
    && (p.pc.Cleanup? && p.outcome.Some? && p.outcome.value in {CANCELED, PAUSED, COMPLETED} ==> p.pc.exit == Return)
  }

  ghost predicate Holds(a: ActorId, actor: Actor, w: View, phase: Phase)
    requires RowActor(actor)
  {
    match actor
    case Proc(_, _, _, _, _, _) => phase == Up && ProcHolds(a, actor, w)
    case Verdict(_, _) => phase == Up && (PendingVerdict(actor) ==> w.exec == None)
    case RowHealer(_, _, _) => phase == Booting
    case _ => true
  }

  ghost predicate AllHold(s: State) {
    && (forall a | a in s.actors && RowActor(s.actors[a]) && s.actors[a].row in s.rows ::
          Holds(a, s.actors[a], Look(s, s.actors[a].row), s.phase))
    && (forall r | r in s.execs && s.execs[r].life.Active? :: s.execs[r].life.owner < s.clock)
  }

  ghost predicate Inv(s: State) {
    Allocated(s) && Grounded(s) && AllHold(s)
  }

  // ------------------------------------------------------------ scalar steps --

  lemma ProcActHolds(a: ActorId, p: Actor, w: View, c: Choice)
    requires p.Proc? && ProcHolds(a, p, w)
    ensures var e := ProcAct(a, p, w, c);
      e.actor.Some? ==> e.actor.value.Proc? && e.actor.value.row == p.row && ProcHolds(a, e.actor.value, e.view)
  {
    match p.pc
    case Claim(_) =>
    case Begin(_) =>
    case Recheck =>
    case Work =>
    case Publish =>
    case Abort(_) =>
    case Cleanup(_) =>
    case _ =>
  }

  /** Every actor's own step keeps its own local invariant. */
  lemma ActHolds(a: ActorId, actor: Actor, w: View, rivals: bool, phase: Phase, c: Choice)
    requires RowActor(actor) && Holds(a, actor, w, phase)
    ensures var e := Act(a, actor, w, rivals, c);
      e.actor.Some? ==> RowActor(e.actor.value) && e.actor.value.row == actor.row &&
                        Holds(a, e.actor.value, e.view, phase)
  {
    if actor.Proc? { ProcActHolds(a, actor, w, c); }
  }

  /** ... and that of any other actor on the same row. */
  lemma ActSparesOthers(a: ActorId, actor: Actor, b: ActorId, other: Actor, w: View, rivals: bool, phase: Phase,
          c: Choice)
    requires RowActor(actor) && RowActor(other) && a != b
    requires Holds(a, actor, w, phase) && Holds(b, other, w, phase)
    requires AboutToAdd(actor) ==> !PendingVerdict(other)
    ensures Holds(b, other, Act(a, actor, w, rivals, c).view, phase)
  {}

  /** A step never starts an execution. */
  lemma ActActivatesNothing(a: ActorId, actor: Actor, w: View, rivals: bool, c: Choice)
    requires RowActor(actor)
    ensures var e := Act(a, actor, w, rivals, c);
      e.view.exec != w.exec && e.view.exec.Some? ==> !e.view.exec.value.life.Active?
  {}

  // ------------------------------------------------------------- state steps --

  /** Writing an effect that every other actor tolerates keeps the local invariants. */
  lemma ApplyKeepsHold(s: State, a: ActorId, r: RowId, e: Effect)
    requires Allocated(s) && Grounded(s) && AllHold(s) && r in s.rows
    requires e.actor.Some? ==>
      RowActor(e.actor.value) && e.actor.value.row == r && Holds(a, e.actor.value, e.view, s.phase)
    requires e.view.exec.Some? && e.view.exec.value.life.Active? ==> Lookup(s.execs, r) == e.view.exec
    requires forall b | b in s.actors && b != a && OnRow(s.actors[b], r) && RowActor(s.actors[b]) ::
      Holds(b, s.actors[b], e.view, s.phase)
    ensures AllHold(Apply(s, a, r, e))
  {
    var t := Apply(s, a, r, e);
    forall b | b in t.actors && RowActor(t.actors[b]) && t.actors[b].row in t.rows
      ensures Holds(b, t.actors[b], Look(t, t.actors[b].row), t.phase)
    {
      LookAfter(s, a, r, e, t.actors[b].row);
      if b != a {
        assert t.actors[b] == s.actors[b];
        assert t.actors[b].row != r ==> Holds(b, s.actors[b], Look(s, t.actors[b].row), s.phase);
      }
    }
  }

  lemma RowStepKeepsHold(s: State, a: ActorId, c: Choice)
    requires Inv(s) && Enabled(s, Step(a, c)) && Orderly(s, Step(a, c)) && RowActor(s.actors[a])
    ensures AllHold(Next(s, Step(a, c)))
  {
    var actor := s.actors[a];
    var r := actor.row;
    var w, rivals := Look(s, r), Rivals(s, r);
    ActHolds(a, actor, w, rivals, s.phase, c);
    ActActivatesNothing(a, actor, w, rivals, c);
    forall b | b in s.actors && b != a && OnRow(s.actors[b], r) && RowActor(s.actors[b])
      ensures Holds(b, s.actors[b], Act(a, actor, w, rivals, c).view, s.phase)
    {
      ActSparesOthers(a, actor, b, s.actors[b], w, rivals, s.phase, c);
    }
    ApplyKeepsHold(s, a, r, Act(a, actor, w, rivals, c));
  }

  /** The local invariant ignores the video and the control mode. */
  lemma HoldsFrame(b: ActorId, p: Actor, q: Actor, w: View, w': View, phase: Phase)
    requires RowActor(p) && Holds(b, p, w, phase) && w' == w.(copy := w'.copy)
    requires q == p || (p.Proc? && q.Proc? && q == p.(mode := q.mode))
    ensures Holds(b, q, w', phase)
  {}

  /** What another event shows an actor of row r. */
  lemma OtherEventsShow(s: State, e: Event, r: RowId)
    requires Allocated(s) && Enabled(s, e) && (e.Step? ==> !RowActor(s.actors[e.actor])) && r in s.rows
    ensures var t := Next(s, e);
      && r in t.rows && Status(t, r) == Status(s, r)
      && (e != Activate(r) && e != Stall(r) && e != FireVerdict(r) ==> Lookup(t.execs, r) == Lookup(s.execs, r))
      && (!e.CrashWorker? ==> Lookup(t.registry, r) == Lookup(s.registry, r))
      && (!e.CrashWorker? && !e.Boot? && !e.Ready? ==> t.phase == s.phase)
  {
    OtherEventsRows(s, e);
    OtherEventsExecs(s, e);
  }

  /** The events that change an execution, the registry or the phase. */
  lemma OldActorTolerates(s: State, e: Event, b: ActorId)
    requires Inv(s) && Enabled(s, e) && Orderly(s, e)
    requires b in s.actors && RowActor(s.actors[b]) && s.actors[b].row in s.rows && b in Next(s, e).actors
    requires var r := s.actors[b].row;
      e == Activate(r) || e == Stall(r) || e == FireVerdict(r) || e.CrashWorker? || e.Boot? || e.Ready?
    ensures var t := Next(s, e);
      t.actors[b] == s.actors[b] && Holds(b, t.actors[b], Look(t, t.actors[b].row), t.phase)
  {
    assert Holds(b, s.actors[b], Look(s, s.actors[b].row), s.phase);
  }

  /** An actor that lives through another event keeps its local invariant. */
  lemma OldActorHolds(s: State, e: Event, b: ActorId)
    requires Inv(s) && Enabled(s, e) && Orderly(s, e) && (e.Step? ==> !RowActor(s.actors[e.actor]))
    requires b in s.actors && b in Next(s, e).actors && RowActor(Next(s, e).actors[b])
    ensures var t := Next(s, e); t.actors[b].row in t.rows ==> Holds(b, t.actors[b], Look(t, t.actors[b].row), t.phase)
  {
    ActorFrame(s, e, b);
    var r := s.actors[b].row;
    OtherEventsShow(s, e, r);
    if e == Activate(r) || e == Stall(r) || e == FireVerdict(r) || e.CrashWorker? || e.Boot? || e.Ready? {
      OldActorTolerates(s, e, b);
    } else {
      HoldsFrame(b, s.actors[b], Next(s, e).actors[b], Look(s, r), Look(Next(s, e), r), s.phase);
    }
  }

  lemma NewActorHolds(s: State, e: Event, b: ActorId)
    requires Inv(s) && Enabled(s, e) && (e.Step? ==> !RowActor(s.actors[e.actor]))
    requires b in Next(s, e).actors && b !in s.actors && RowActor(Next(s, e).actors[b])
    ensures var t := Next(s, e); t.actors[b].row in t.rows ==> Holds(b, t.actors[b], Look(t, t.actors[b].row), t.phase)
  {}

  lemma OtherEventsKeepHold(s: State, e: Event)
    requires Inv(s) && Enabled(s, e) && Orderly(s, e) && (e.Step? ==> !RowActor(s.actors[e.actor]))
    ensures AllHold(Next(s, e))
  {
    var t := Next(s, e);
    OtherEventsExecs(s, e);
    assert t.clock >= s.clock;
    forall b | b in t.actors && RowActor(t.actors[b]) && t.actors[b].row in t.rows
      ensures Holds(b, t.actors[b], Look(t, t.actors[b].row), t.phase)
    {
      if b in s.actors { OldActorHolds(s, e, b); } else { NewActorHolds(s, e, b); }
    }
  }

  /** Every event of an orderly run keeps the invariant. */
  lemma EventKeepsInv(s: State, e: Event)
    requires Inv(s) && Enabled(s, e) && Orderly(s, e)
    ensures Inv(Next(s, e))
  {
    EventAdvances(s, e);
    EventKeepsGrounded(s, e);
    if e.Step? && RowActor(s.actors[e.actor]) {
      RowStepKeepsHold(s, e.actor, e.choice);
    } else {
      OtherEventsKeepHold(s, e);
    }
  }

  // ------------------------------------------------------------ main results --

  lemma InitialInv(s: State)
    requires Initial(s)
    ensures Inv(s)
  {}

  lemma {:induction false} RunKeepsInv(s: State, events: seq<Event>)
    requires Inv(s) && IsOrderlyRun(s, events)
    ensures IsRun(s, events) && Inv(After(s, events))
    decreases |events|
  {
    if events != [] {
      EventKeepsInv(s, events[0]);
      RunKeepsInv(Next(s, events[0]), events[1..]);
    }
  }

  /** With the invariant a call that begins its video has its row RUNNING, so only a late compensation strands. */
  lemma InvStrandsOnlyLate(s: State, e: Event, v: VideoId)
    requires Inv(s) && Enabled(s, e) && Strands(s, e, v)
    ensures CompensatesLate(s.actors[e.actor], Look(s, s.actors[e.actor].row))
  {
    assert Holds(e.actor, s.actors[e.actor], Look(s, s.actors[e.actor].row), s.phase);
  }

  /** No rejected add in this run is compensated after its row has run. */
  ghost predicate CompensatesInTime(s: State, events: seq<Event>)
    requires IsRun(s, events)
    decreases |events|
  {
    events == [] ||
    ((events[0].Step? && RowActor(s.actors[events[0].actor]) ==>
        !CompensatesLate(s.actors[events[0].actor], Look(s, s.actors[events[0].actor].row))) &&
     CompensatesInTime(Next(s, events[0]), events[1..]))
  }

  lemma {:induction false} InTimeNeverStrands(s: State, events: seq<Event>, v: VideoId)
    requires Inv(s) && IsOrderlyRun(s, events) && IsRun(s, events) && CompensatesInTime(s, events)
    ensures NeverStranded(s, events, v)
    decreases |events|
  {
    if events != [] {
      if Strands(s, events[0], v) { InvStrandsOnlyLate(s, events[0], v); }
      EventKeepsInv(s, events[0]);
      InTimeNeverStrands(Next(s, events[0]), events[1..], v);
    }
  }

  /**
   * In an orderly run only a compensation that comes late can strand a video: without one,
   * in every state it passes through a QUEUED or DOWNLOADING video has an active row, or
   * the actor that settled its row still owes the hop or died in a crash while owing it.
   */
  lemma OrderlyRunsKeepVideosOwned(s: State, events: seq<Event>, v: VideoId)
    requires Initial(s) && IsOrderlyRun(s, events) && IsRun(s, events) && CompensatesInTime(s, events)
    ensures AlwaysOwned(s, events, v)
  {
    InitialInv(s);
    InTimeNeverStrands(s, events, v);
    VideosStayOwned(s, events, v);
  }

  /** A processor's execution names it, and the registry does once it works. */
  lemma ProcIsKnown(t: State, a: ActorId)
    requires Grounded(t) && AllHold(t) && a in t.actors && t.actors[a].Proc?
    ensures var r := t.actors[a].row;
      r in t.execs && t.execs[r].life == Active(a) &&
      (Working(t.actors[a].pc) ==> Status(t, r) == RUNNING && Lookup(t.registry, r) == Some(a))
  {
    assert ProcHolds(a, t.actors[a], Look(t, t.actors[a].row));
  }

  /**
   * In an orderly run a row has at most one processor call, and one that works, between its
   * claim and the write that settles its row, has the row RUNNING and is the one the control
   * plane knows. (That there is only one needs StallIsDeath alone: OneCallPerRow.)
   */
  lemma OneProcessorPerRow(s: State, events: seq<Event>, a: ActorId, b: ActorId)
    requires Initial(s) && IsOrderlyRun(s, events)
    ensures IsRun(s, events)
    ensures var t := After(s, events);
      a in t.actors && t.actors[a].Proc? ==>
        && (b in t.actors && t.actors[b].Proc? && t.actors[b].row == t.actors[a].row ==> a == b)
        && (Working(t.actors[a].pc) ==>
              Status(t, t.actors[a].row) == RUNNING && Lookup(t.registry, t.actors[a].row) == Some(a))
  {
    InitialInv(s);
    RunKeepsInv(s, events);
    var t := After(s, events);
    if a in t.actors && t.actors[a].Proc? {
      ProcIsKnown(t, a);
      if b in t.actors && t.actors[b].Proc? && t.actors[b].row == t.actors[a].row { ProcIsKnown(t, b); }
    }
  }

  lemma OnlyClaimStartsWork(a: ActorId, p: Actor, w: View, c: Choice)
    requires p.Proc? && !Working(p.pc)
    ensures var e := ProcAct(a, p, w, c);
      e.actor.Some? && e.actor.value.Proc? && Working(e.actor.value.pc) ==> p.pc.Claim? && CanClaim(w.status, p.started)
  {}

  lemma WorkStartsByOwnStep(s: State, e: Event, a: ActorId)
    requires Allocated(s) && Grounded(s) && Enabled(s, e)
    requires a in s.actors && s.actors[a].Proc? && !Working(s.actors[a].pc)
    requires a in Next(s, e).actors && Next(s, e).actors[a].Proc? && Working(Next(s, e).actors[a].pc)
    ensures e.Step? && e.actor == a && s.actors[a].pc.Claim?
    ensures CanClaim(Status(s, s.actors[a].row), s.actors[a].started)
  {
    if !(e.Step? && e.actor == a) {
      ActorFrame(s, e, a);
    } else {
      var p, w := s.actors[a], Look(s, s.actors[a].row);
      OnlyClaimStartsWork(a, p, w, e.choice);
      ApplyOwn(s, a, p.row, ProcAct(a, p, w, e.choice));
    }
  }

  /**
   * A claim is the only way into work: it succeeds exactly on a QUEUED row, or on a RUNNING
   * row by a re-execution, and then nobody else is on the row.
   */
  lemma WorkStartsByClaim(s: State, e: Event, a: ActorId)
    requires Inv(s) && Enabled(s, e) && Orderly(s, e)
    requires a in s.actors && s.actors[a].Proc? && !Working(s.actors[a].pc)
    requires a in Next(s, e).actors && Next(s, e).actors[a].Proc? && Working(Next(s, e).actors[a].pc)
    ensures e.Step? && e.actor == a && s.actors[a].pc.Claim?
    ensures var st := Status(s, s.actors[a].row); st == QUEUED || (st == RUNNING && s.actors[a].started > 1)
    ensures forall b | b in s.actors && b != a && s.actors[b].Proc? :: s.actors[b].row != s.actors[a].row
  {
    ProcIsKnown(s, a);
    forall b | b in s.actors && b != a && s.actors[b].Proc? ensures s.actors[b].row != s.actors[a].row {
      ProcIsKnown(s, b);
    }
    WorkStartsByOwnStep(s, e, a);
  }
}
