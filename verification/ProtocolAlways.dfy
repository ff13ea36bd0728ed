/** What every interleaving keeps, with no assumption on scheduling, stalls or crashes. */
module ProtocolAlways {
  import opened Domain
  import opened DownloadProtocol

  /** Ids come from the clock, so none is ever handed out twice. */
  ghost predicate Allocated(s: State) {
    && (forall r | r in s.rows :: r < s.clock)
    && (forall a | a in s.actors :: a < s.clock)
  }

  /** The partial unique index ux_job_active_download. */
  ghost predicate OneActiveRow(s: State) {
    forall r, o | r in s.rows && o in s.rows && s.rows[r].video == s.rows[o].video &&
      IsActive(s.rows[r].status) && IsActive(s.rows[o].status) :: r == o
  }

  /** Rows, videos and the rows that actors and executions stand for exist. */
  ghost predicate Grounded(s: State) {
    && (forall r | r in s.rows :: s.rows[r].video in s.videos)
    && (forall r | r in s.execs :: r in s.rows)
    && (forall a | a in s.actors :: Runnable(s, s.actors[a]))
  }

  /**
   * What one event may do to the rows that exist: nothing disappears, no row changes its
   * video, and no row leaves a terminal status.
   */
  ghost predicate RowsAdvance(s: State, s': State) {
    forall r | r in s.rows ::
      r in s'.rows && s'.rows[r].video == s.rows[r].video &&
      (IsTerminal(s.rows[r].status) ==> s'.rows[r].status == s.rows[r].status)
  }

  /** No step of any actor takes a row out of a terminal status. */
  lemma ActKeepsTerminal(a: ActorId, actor: Actor, w: View, rivals: bool, c: Choice)
    requires RowActor(actor) && IsTerminal(w.status)
    ensures Act(a, actor, w, rivals, c).view.status == w.status
  {}

  lemma StepAdvances(s: State, a: ActorId, c: Choice)
    requires Enabled(s, Step(a, c)) && Allocated(s)
    ensures var s' := ActorStep(s, a, c); Allocated(s') && RowsAdvance(s, s') && s'.rows.Keys == s.rows.Keys
  {
    if RowActor(s.actors[a]) {
      var w, rivals := Look(s, s.actors[a].row), Rivals(s, s.actors[a].row);
      if IsTerminal(w.status) { ActKeepsTerminal(a, s.actors[a], w, rivals, c); }
      ApplyAdvances(s, a, s.actors[a].row, Act(a, s.actors[a], w, rivals, c));
    }
  }

  lemma ApplyAdvances(s: State, a: ActorId, r: RowId, e: Effect)
    requires Allocated(s) && a in s.actors && r in s.rows && s.rows[r].video in s.videos
    requires IsTerminal(s.rows[r].status) ==> e.view.status == s.rows[r].status
    ensures var s' := Apply(s, a, r, e); Allocated(s') && RowsAdvance(s, s') && s'.rows.Keys == s.rows.Keys
  {}

  lemma EventAdvances(s: State, e: Event)
    requires Enabled(s, e) && Allocated(s)
    ensures Allocated(Next(s, e)) && RowsAdvance(s, Next(s, e))
  {
    if e.Step? { StepAdvances(s, e.actor, e.choice); }
  }

  lemma ActStaysOnRow(a: ActorId, actor: Actor, w: View, rivals: bool, c: Choice)
    requires RowActor(actor)
    ensures var e := Act(a, actor, w, rivals, c);
      e.actor.Some? ==> RowActor(e.actor.value) && e.actor.value.row == actor.row
  {}

  lemma ApplyKeepsGrounded(s: State, a: ActorId, r: RowId, e: Effect)
    requires Grounded(s) && r in s.rows
    requires e.actor.Some? ==> RowActor(e.actor.value) && e.actor.value.row == r
    ensures Grounded(Apply(s, a, r, e))
  {}

  lemma StepKeepsGrounded(s: State, a: ActorId, c: Choice)
    requires Enabled(s, Step(a, c)) && Grounded(s)
    ensures Grounded(ActorStep(s, a, c))
  {
    var actor := s.actors[a];
    if RowActor(actor) {
      var w, rivals := Look(s, actor.row), Rivals(s, actor.row);
      ActStaysOnRow(a, actor, w, rivals, c);
      ApplyKeepsGrounded(s, a, actor.row, Act(a, actor, w, rivals, c));
    }
  }

  /** So every actor can always take its next step. */
  lemma EventKeepsGrounded(s: State, e: Event)
    requires Enabled(s, e) && Grounded(s)
    ensures Grounded(Next(s, e))
  {
    if e.Step? { StepKeepsGrounded(s, e.actor, e.choice); }
  }

  /** What these events change of a row that exists: its execution at most. */
  lemma OtherEventsRows(s: State, e: Event)
    requires Allocated(s) && Enabled(s, e) && (e.Step? ==> !RowActor(s.actors[e.actor]))
    ensures forall o | o in s.rows :: o in Next(s, e).rows && Next(s, e).rows[o] == s.rows[o]
  {}

  lemma OtherEventsExecs(s: State, e: Event)
    requires Allocated(s) && Enabled(s, e) && (e.Step? ==> !RowActor(s.actors[e.actor]))
    ensures match e
      case Activate(r) => Next(s, e).execs ==
        s.execs[r := Exec(Active(s.clock), s.execs[r].started + 1, s.execs[r].failures)]
      case Stall(r) => Next(s, e).execs == s.execs[r := s.execs[r].(life := Doomed)]
      case FireVerdict(r) => Next(s, e).execs == s.execs - {r}
      case _ => Next(s, e).execs == s.execs
  {}

  /** Only an actor's own step moves it; a message or the drain sets a processor's abort mode. */
  lemma ActorFrame(s: State, e: Event, a: ActorId)
    requires Enabled(s, e) && Allocated(s) && a in s.actors && !(e.Step? && e.actor == a)
    requires a in Next(s, e).actors
    ensures var p, q := s.actors[a], Next(s, e).actors[a];
      q == p ||
      (p.Proc? && q.Proc? && q == p.(mode := q.mode) &&
       if e.Drain? then p.mode.None? && q.mode == Some(Shutdown)
       else e.Step? && s.actors[e.actor].Message? && q.mode == Some(s.actors[e.actor].signal))
  {
    if e.Step? && RowActor(s.actors[e.actor]) {
      var actor := s.actors[e.actor];
      ApplyFrame(s, e.actor, actor.row, Act(e.actor, actor, Look(s, actor.row), Rivals(s, actor.row), e.choice), a);
    }
  }

  lemma ApplyFrame(s: State, b: ActorId, r: RowId, e: Effect, a: ActorId)
    requires Allocated(s) && r in s.rows && s.rows[r].video in s.videos && a in s.actors && a != b
    ensures var t := Apply(s, b, r, e); a in t.actors && t.actors[a] == s.actors[a]
  {}

  /** What a row's actors see after the effect: the effect itself, its video move, or no change. */
  lemma LookAfter(s: State, a: ActorId, r: RowId, e: Effect, o: RowId)
    requires Grounded(s) && r in s.rows && o in s.rows
    ensures var s' := Apply(s, a, r, e);
      Look(s', o) == if o == r then e.view
                     else if VideoOf(s, o) == VideoOf(s, r) then Look(s, o).(copy := e.view.copy)
                     else Look(s, o)
  {}

  lemma ApplyOwn(s: State, a: ActorId, r: RowId, e: Effect)
    requires Allocated(s) && Grounded(s) && a in s.actors && r in s.rows
    ensures var t := Apply(s, a, r, e);
      (a in t.actors <==> e.actor.Some?) && (e.actor.Some? ==> t.actors[a] == e.actor.value)
  {}

  /** An id that no living actor has is never taken again. */
  lemma DeadStaysDead(s: State, e: Event, a: ActorId)
    requires Enabled(s, e) && Allocated(s) && a < s.clock && a !in s.actors
    ensures a !in Next(s, e).actors
  {}

  /** Without a new row, no row becomes active. */
  lemma AdvancingKeepsOneActiveRow(s: State, s': State)
    requires OneActiveRow(s) && RowsAdvance(s, s') && s'.rows.Keys == s.rows.Keys
    ensures OneActiveRow(s')
  {}

  lemma EnqueueKeepsOneActiveRow(s: State, v: VideoId)
    requires Allocated(s) && OneActiveRow(s) && !HasActiveRow(s, v)
    ensures OneActiveRow(s.(rows := s.rows[s.clock := Row(v, QUEUED)]))
  {
    forall r | r in s.rows && s.rows[r].video == v ensures !IsActive(s.rows[r].status) {
      assert ActiveRow(s, r, v) <==> IsActive(s.rows[r].status);
    }
  }

  lemma EventKeepsOneActiveRow(s: State, e: Event)
    requires Enabled(s, e) && Allocated(s) && OneActiveRow(s)
    ensures OneActiveRow(Next(s, e))
  {
    EventAdvances(s, e);
    if e.EnqueueVideo? {
      EnqueueKeepsOneActiveRow(s, e.video);
    } else {
      if e.Step? { StepAdvances(s, e.actor, e.choice); }
      AdvancingKeepsOneActiveRow(s, Next(s, e));
    }
  }

  /**
   * Over every run, with no scheduling assumption at all: a video never has two active
   * DOWNLOAD rows, and a row that reached a terminal status keeps it.
   */
  lemma {:induction false} RunKeepsRows(s: State, events: seq<Event>)
    requires IsRun(s, events) && Allocated(s) && Grounded(s) && OneActiveRow(s)
    ensures OneActiveRow(After(s, events)) && Grounded(After(s, events)) && Allocated(After(s, events))
    ensures RowsAdvance(s, After(s, events))
    decreases |events|
  {
    if events != [] {
      EventAdvances(s, events[0]);
      EventKeepsOneActiveRow(s, events[0]);
      EventKeepsGrounded(s, events[0]);
      RunKeepsRows(Next(s, events[0]), events[1..]);
    }
  }
}
