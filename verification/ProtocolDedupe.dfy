/**
 * The dedupe window: executions and rows share an id, and adding an id that exists does
 * nothing. Nothing is assumed about scheduling, stalls or crashes.
 */
module ProtocolDedupe {
  import opened Domain
  import opened JobStatusCas
  import opened DownloadProtocol
  import opened ProtocolAlways

  /** The step is an add that goes through. */
  predicate Adds(actor: Actor, c: Choice) {
    match actor
    case Enqueuer(_, pc) => pc == EnqueueAdd && c.Good?
    case Resumer(_, pc) => pc == ResumeAdd && c.Good?
    case RowHealer(_, _, pc) => pc == HealAdd
    case _ => false
  }

  /** The step takes its row's execution away: a call ends for good, or a command removes it. */
  predicate TakesAway(a: ActorId, actor: Actor, life: Life, c: Choice) {
    match actor
    case Proc(_, _, _, pc, _, _) => pc.Settle? && life == Active(a) && (pc.exit != Throw || LastAttempt(actor))
    case Canceller(_, pc) => pc == CancelRemove && c.Good? && !life.Active?
    case Pauser(_, pc) => pc == PauseRemove && c.Good? && !life.Active?
    case _ => false
  }

  /** The event puts an execution under id r where there was none. */
  predicate Fills(s: State, e: Event, r: RowId) {
    r !in s.execs && e.Step? && e.actor in s.actors && OnRow(s.actors[e.actor], r) && Adds(s.actors[e.actor], e.choice)
  }

  /** The event takes the execution under id r away. */
  predicate Empties(s: State, e: Event, r: RowId) {
    r in s.execs &&
    (e == FireVerdict(r) ||
     (e.Step? && e.actor in s.actors && OnRow(s.actors[e.actor], r) &&
      TakesAway(e.actor, s.actors[e.actor], s.execs[r].life, e.choice)))
  }

  lemma ActChangesId(a: ActorId, actor: Actor, w: View, rivals: bool, c: Choice)
    requires RowActor(actor)
    ensures Act(a, actor, w, rivals, c).view.exec.Some? <==>
      if w.exec.Some? then !TakesAway(a, actor, w.exec.value.life, c) else Adds(actor, c)
  {}

  lemma ApplyChangesId(s: State, a: ActorId, r: RowId, e: Effect, o: RowId)
    requires r in s.rows && s.rows[r].video in s.videos
    ensures o in Apply(s, a, r, e).execs <==> if o == r then e.view.exec.Some? else o in s.execs
  {}

  lemma OtherEventsChangeId(s: State, e: Event, r: RowId)
    requires Allocated(s) && Grounded(s) && Enabled(s, e) && (e.Step? ==> !RowActor(s.actors[e.actor]))
    ensures r in Next(s, e).execs <==> r in s.execs && e != FireVerdict(r)
  {}

  lemma EventChangesId(s: State, e: Event, r: RowId)
    requires Allocated(s) && Grounded(s) && Enabled(s, e)
    ensures r in Next(s, e).execs <==> (r in s.execs && !Empties(s, e, r)) || Fills(s, e, r)
  {
    if e.Step? && RowActor(s.actors[e.actor]) {
      var actor := s.actors[e.actor];
      var w, rivals := Look(s, actor.row), Rivals(s, actor.row);
      ActChangesId(e.actor, actor, w, rivals, e.choice);
      ApplyChangesId(s, e.actor, actor.row, Act(e.actor, actor, w, rivals, e.choice), r);
    } else {
      OtherEventsChangeId(s, e, r);
    }
  }

  /** An add has filled id r in this run and nothing has emptied it since. */
  ghost predicate FilledSince(s: State, events: seq<Event>, r: RowId, filled: bool)
    requires IsRun(s, events)
    decreases |events|
  {
    if events == [] then filled
    else
      FilledSince(Next(s, events[0]), events[1..], r,
                  (filled && !Empties(s, events[0], r)) || Fills(s, events[0], r))
  }

  lemma {:induction false} IdIsFilled(s: State, events: seq<Event>, r: RowId)
    requires Allocated(s) && Grounded(s) && IsRun(s, events)
    ensures Allocated(After(s, events)) && Grounded(After(s, events))
    ensures r in After(s, events).execs <==> FilledSince(s, events, r, r in s.execs)
    decreases |events|
  {
    if events != [] {
      EventAdvances(s, events[0]);
      EventKeepsGrounded(s, events[0]);
      EventChangesId(s, events[0], r);
      IdIsFilled(Next(s, events[0]), events[1..], r);
    }
  }

  /** Resume a has just seen that no execution has the id, and stands before its add in u. */
  ghost predicate ResumeWindow(s: State, a: ActorId, c: Choice, between: seq<Event>) {
    Allocated(s) && Grounded(s) && Enabled(s, Step(a, c)) &&
    s.actors[a].Resumer? && s.actors[a].rpc == ResumeWait && s.actors[a].row !in s.execs &&
    IsRun(Next(s, Step(a, c)), between) &&
    var u := After(Next(s, Step(a, c)), between);
    a in u.actors && u.actors[a] == Resumer(s.actors[a].row, ResumeAdd)
  }

  lemma WaitLeavesIdFree(s: State, a: ActorId, c: Choice)
    requires Allocated(s) && Grounded(s) && Enabled(s, Step(a, c))
    requires s.actors[a].Resumer? && s.actors[a].rpc == ResumeWait && s.actors[a].row !in s.execs
    ensures var t := Next(s, Step(a, c)); Allocated(t) && Grounded(t) && s.actors[a].row !in t.execs
  {
    EventAdvances(s, Step(a, c));
    EventKeepsGrounded(s, Step(a, c));
    EventChangesId(s, Step(a, c), s.actors[a].row);
  }

  /** The add of resume a does nothing, or creates a fresh execution that may claim the row exactly if it is QUEUED. */
  ghost predicate AddResult(u: State, a: ActorId, r: RowId, swallowed: bool) {
    Enabled(u, Step(a, Good)) &&
    var t := Next(u, Step(a, Good));
    if swallowed then t.execs == u.execs
    else t.execs == u.execs[r := Exec(Pending, 0, 0)] &&
         (CanClaim(Status(t, r), t.execs[r].started + 1) <==> Status(u, r) == QUEUED)
  }

  lemma AddMeetsId(u: State, a: ActorId, r: RowId)
    requires Grounded(u) && a in u.actors && u.actors[a] == Resumer(r, ResumeAdd)
    ensures AddResult(u, a, r, r in u.execs)
  {
    LookAfter(u, a, r, Act(a, u.actors[a], Look(u, r), Rivals(u, r), Good), r);
  }

  /**
   * The dedupe window, in every interleaving: a resume's add is swallowed if and only if,
   * between its last look at the old execution and its add, another add put an execution
   * under the id that is still there. Otherwise it creates a fresh one.
   */
  lemma ResumeIsSwallowedExactly(s: State, a: ActorId, c: Choice, between: seq<Event>)
    requires ResumeWindow(s, a, c, between)
    ensures var r := s.actors[a].row;
      AddResult(After(Next(s, Step(a, c)), between), a, r, FilledSince(Next(s, Step(a, c)), between, r, false))
  {
    WaitLeavesIdFree(s, a, c);
    IdIsFilled(Next(s, Step(a, c)), between, s.actors[a].row);
    AddMeetsId(After(Next(s, Step(a, c)), between), a, s.actors[a].row);
  }
}
