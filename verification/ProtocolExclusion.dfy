/**
 * How many processor calls a row can have. Nothing is assumed about scheduling: two calls
 * meet on a row exactly when its next execution is picked up while a call whose own was
 * declared stalled under it still lives.
 */
module ProtocolExclusion {
  import opened Domain
  import opened DownloadProtocol
  import opened ProtocolAlways

  // ------------------------------------------------------- calls and executions --

  predicate CallOn(s: State, a: ActorId, r: RowId) {
    a in s.actors && s.actors[a].Proc? && s.actors[a].row == r
  }

  predicate HoldsExecution(s: State, a: ActorId, r: RowId) {
    r in s.execs && s.execs[r].life == Active(a)
  }

  /** The living call that loses its execution to this event. */
  function Bereft(s: State, e: Event): set<ActorId> {
    if e.Stall? && e.row in s.execs && s.execs[e.row].life.Active? && s.execs[e.row].life.owner in s.actors
    then {s.execs[e.row].life.owner} else {}
  }

  /** Every call holds its row's execution, but those that lost it to a stall. */
  ghost predicate Tracked(s: State, zombies: set<ActorId>) {
    Allocated(s) && Grounded(s) && forall a, r | CallOn(s, a, r) && a !in zombies :: HoldsExecution(s, a, r)
  }

  ghost predicate Exclusive(s: State) {
    forall a, b, r | CallOn(s, a, r) && CallOn(s, b, r) :: a == b
  }

  /** A row's execution is picked up while a call that lost the previous one is still on the row. */
  ghost predicate Haunted(s: State, e: Event, zombies: set<ActorId>) {
    e.Activate? && exists a | a in zombies :: CallOn(s, a, e.row)
  }

  // -------------------------------------------------------------------- one event --

  /** Nobody takes an execution away from the call that holds it. */
  lemma ActSparesHolder(b: ActorId, actor: Actor, w: View, rivals: bool, c: Choice, a: ActorId)
    requires RowActor(actor) && w.exec.Some? && w.exec.value.life == Active(a)
    requires a == b ==> Act(b, actor, w, rivals, c).actor.Some?
    ensures Act(b, actor, w, rivals, c).view.exec == w.exec
  {}

  lemma ActKeepsRole(b: ActorId, actor: Actor, w: View, rivals: bool, c: Choice)
    requires RowActor(actor)
    ensures var e := Act(b, actor, w, rivals, c);
      e.actor.Some? ==> e.actor.value.row == actor.row && (e.actor.value.Proc? <==> actor.Proc?)
  {}

  lemma ApplyExec(s: State, b: ActorId, r: RowId, e: Effect, o: RowId)
    requires Grounded(s) && r in s.rows
    ensures Lookup(Apply(s, b, r, e).execs, o) == if o == r then e.view.exec else Lookup(s.execs, o)
  {}

  /** The calls of the next state were there before, on the same rows, but one that was just activated. */
  lemma CallsAreOld(s: State, e: Event, a: ActorId, r: RowId)
    requires Allocated(s) && Grounded(s) && Enabled(s, e) && CallOn(Next(s, e), a, r)
    ensures CallOn(s, a, r) || (e == Activate(r) && a == s.clock && HoldsExecution(Next(s, e), a, r))
  {
    if a in s.actors {
      if e.Step? && e.actor == a {
        var p := s.actors[a];
        var w, rivals := Look(s, p.row), Rivals(s, p.row);
        ActKeepsRole(a, p, w, rivals, e.choice);
        ApplyOwn(s, a, p.row, Act(a, p, w, rivals, e.choice));
      } else {
        ActorFrame(s, e, a);
      }
    } else if e.Step? && RowActor(s.actors[e.actor]) {
      NoStepStartsCall(s, e.actor, e.choice, a);
    }
  }

  lemma NoStepStartsCall(s: State, b: ActorId, c: Choice, a: ActorId)
    requires Allocated(s) && Grounded(s) && Enabled(s, Step(b, c)) && RowActor(s.actors[b]) && a !in s.actors
    ensures a in Next(s, Step(b, c)).actors ==> !Next(s, Step(b, c)).actors[a].Proc?
  {}

  lemma StepKeepsHolder(s: State, b: ActorId, c: Choice, a: ActorId, r: RowId)
    requires Allocated(s) && Grounded(s) && Enabled(s, Step(b, c)) && RowActor(s.actors[b])
    requires CallOn(s, a, r) && HoldsExecution(s, a, r) && a in Next(s, Step(b, c)).actors
    ensures HoldsExecution(Next(s, Step(b, c)), a, r)
  {
    var actor := s.actors[b];
    var w, rivals := Look(s, actor.row), Rivals(s, actor.row);
    var e := Act(b, actor, w, rivals, c);
    ApplyOwn(s, b, actor.row, e);
    ApplyExec(s, b, actor.row, e, r);
    if actor.row == r { ActSparesHolder(b, actor, w, rivals, c, a); }
  }

  lemma OthersKeepHolder(s: State, e: Event, a: ActorId, r: RowId)
    requires Allocated(s) && Grounded(s) && Enabled(s, e) && (e.Step? ==> !RowActor(s.actors[e.actor]))
    requires CallOn(s, a, r) && HoldsExecution(s, a, r) && a in Next(s, e).actors
    ensures HoldsExecution(Next(s, e), a, r) || a in Bereft(s, e)
  {
    OtherEventsExecs(s, e);
  }

  lemma EventTracks(s: State, e: Event, zombies: set<ActorId>)
    requires Tracked(s, zombies) && Enabled(s, e)
    ensures Tracked(Next(s, e), zombies + Bereft(s, e))
  {
    EventAdvances(s, e);
    EventKeepsGrounded(s, e);
    forall a, r | CallOn(Next(s, e), a, r) && a !in zombies + Bereft(s, e) ensures HoldsExecution(Next(s, e), a, r) {
      CallsAreOld(s, e, a, r);
      if CallOn(s, a, r) {
        if e.Step? && RowActor(s.actors[e.actor]) {
          StepKeepsHolder(s, e.actor, e.choice, a, r);
        } else {
          OthersKeepHolder(s, e, a, r);
        }
      }
    }
  }

  /** A second call comes onto a row exactly by an activation over a call that lost its execution. */
  lemma EventExcludesExactly(s: State, e: Event, zombies: set<ActorId>)
    requires Tracked(s, zombies) && Exclusive(s) && Enabled(s, e)
    ensures Exclusive(Next(s, e)) <==> !Haunted(s, e, zombies)
  {
    var t := Next(s, e);
    if Haunted(s, e, zombies) {
      var a :| a in zombies && CallOn(s, a, e.row);
      assert CallOn(t, a, e.row) && CallOn(t, s.clock, e.row) && a != s.clock;
    } else {
      forall a, b, r | CallOn(t, a, r) && CallOn(t, b, r) ensures a == b {
        CallsAreOld(s, e, a, r);
        CallsAreOld(s, e, b, r);
      }
    }
  }

  // ------------------------------------------------------------------ main results --

  /** In every state of the run no row has two calls. */
  ghost predicate AlwaysExclusive(s: State, events: seq<Event>)
    requires IsRun(s, events)
    decreases |events|
  {
    Exclusive(s) && (events == [] || AlwaysExclusive(Next(s, events[0]), events[1..]))
  }

  ghost predicate NeverHaunted(s: State, events: seq<Event>, zombies: set<ActorId>)
    requires IsRun(s, events)
    decreases |events|
  {
    events == [] ||
    (!Haunted(s, events[0], zombies) &&
     NeverHaunted(Next(s, events[0]), events[1..], zombies + Bereft(s, events[0])))
  }

  lemma {:induction false} ExclusiveExactly(s: State, events: seq<Event>, zombies: set<ActorId>)
    requires Tracked(s, zombies) && Exclusive(s) && IsRun(s, events)
    ensures AlwaysExclusive(s, events) <==> NeverHaunted(s, events, zombies)
    decreases |events|
  {
    if events != [] {
      var t := Next(s, events[0]);
      EventTracks(s, events[0], zombies);
      EventExcludesExactly(s, events[0], zombies);
      if Exclusive(t) {
        ExclusiveExactly(t, events[1..], zombies + Bereft(s, events[0]));
      } else {
        assert !AlwaysExclusive(t, events[1..]);
      }
    }
  }

  /**
   * Exclusion, in every interleaving: a row never has two processor calls at once if and
   * only if no execution is picked up while a call whose own execution was declared stalled
   * under it is still on the row.
   */
  lemma CallsExcludeExactly(s: State, events: seq<Event>)
    requires Initial(s) && IsRun(s, events)
    ensures AlwaysExclusive(s, events) <==> NeverHaunted(s, events, {})
  {
    ExclusiveExactly(s, events, {});
  }

  /** An execution is declared stalled only once its processor is dead. */
  ghost predicate StallIsDeath(s: State, e: Event) {
    e.Stall? && e.row in s.execs && s.execs[e.row].life.Active? ==> s.execs[e.row].life.owner !in s.actors
  }

  ghost predicate StallsAreDeaths(s: State, events: seq<Event>)
    requires IsRun(s, events)
    decreases |events|
  {
    events == [] || (StallIsDeath(s, events[0]) && StallsAreDeaths(Next(s, events[0]), events[1..]))
  }

  /** A call between register and unregister is the one its row's registry entry names. */
  ghost predicate Entered(s: State) {
    forall a, r | CallOn(s, a, r) && Registered(s.actors[a].pc) :: Lookup(s.registry, r) == Some(a)
  }

  lemma ActEnters(b: ActorId, actor: Actor, w: View, rivals: bool, c: Choice)
    requires RowActor(actor)
    requires actor.Proc? && Registered(actor.pc) ==> w.entry == Some(b)
    ensures var e := Act(b, actor, w, rivals, c);
      && (!actor.Proc? ==> e.view.entry == w.entry)
      && (e.actor.Some? && e.actor.value.Proc? && Registered(e.actor.value.pc) ==> e.view.entry == Some(b))
  {}

  lemma ApplyEntry(s: State, b: ActorId, r: RowId, e: Effect, o: RowId)
    requires Grounded(s) && r in s.rows
    ensures Lookup(Apply(s, b, r, e).registry, o) == if o == r then e.view.entry else Lookup(s.registry, o)
  {}

  lemma EventEnters(s: State, e: Event)
    requires Allocated(s) && Grounded(s) && Exclusive(s) && Entered(s) && Enabled(s, e)
    ensures Entered(Next(s, e))
  {
    var t := Next(s, e);
    forall a, r | CallOn(t, a, r) && Registered(t.actors[a].pc) ensures Lookup(t.registry, r) == Some(a) {
      CallsAreOld(s, e, a, r);
      if e.Step? && RowActor(s.actors[e.actor]) {
        var actor := s.actors[e.actor];
        var w, rivals := Look(s, actor.row), Rivals(s, actor.row);
        assert CallOn(s, e.actor, actor.row) <==> actor.Proc?;
        ActEnters(e.actor, actor, w, rivals, e.choice);
        ApplyOwn(s, e.actor, actor.row, Act(e.actor, actor, w, rivals, e.choice));
        ApplyEntry(s, e.actor, actor.row, Act(e.actor, actor, w, rivals, e.choice), r);
        if a != e.actor { ActorFrame(s, e, a); }
      } else if a in s.actors {
        ActorFrame(s, e, a);
      }
    }
  }

  lemma {:induction false} DeathsLeaveNoZombies(s: State, events: seq<Event>)
    requires Tracked(s, {}) && Exclusive(s) && Entered(s) && IsRun(s, events) && StallsAreDeaths(s, events)
    ensures NeverHaunted(s, events, {})
    ensures Tracked(After(s, events), {}) && Exclusive(After(s, events)) && Entered(After(s, events))
    decreases |events|
  {
    if events != [] {
      var e := events[0];
      assert {} + Bereft(s, e) == {};
      EventTracks(s, e, {});
      EventExcludesExactly(s, e, {});
      EventEnters(s, e);
      DeathsLeaveNoZombies(Next(s, e), events[1..]);
    }
  }

  /**
   * If executions are declared stalled only after their calls died, and nothing else is
   * assumed: a row never has two calls, and a call holds its row's execution and, between
   * register and unregister, its registry entry.
   */
  lemma OneCallPerRow(s: State, events: seq<Event>, a: ActorId, b: ActorId, r: RowId)
    requires Initial(s) && IsRun(s, events) && StallsAreDeaths(s, events)
    ensures AlwaysExclusive(s, events)
    ensures var t := After(s, events);
      CallOn(t, a, r) ==>
        && (CallOn(t, b, r) ==> a == b)
        && HoldsExecution(t, a, r)
        && (Registered(t.actors[a].pc) ==> Lookup(t.registry, r) == Some(a))
  {
    DeathsLeaveNoZombies(s, events);
    CallsExcludeExactly(s, events);
  }
}
