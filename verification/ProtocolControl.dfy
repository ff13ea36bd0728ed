/** What becomes of a cancel or pause, wherever it finds the download. */
module ProtocolControl {
  import opened Domain
  import opened DownloadProtocol
  import opened ProtocolAlways
  import opened ProtocolOwnership

  /** The status a command asks for. The drain asks for a hand-back. */
  function Asks(m: Mode): JobStatus {
    match m
    case Cancel => CANCELED
    case Pause => PAUSED
    case Shutdown => QUEUED
  }

  // ----------------------------------------------------------- the registry --

  /** The control registry names living calls between register and unregister, each under its row. */
  ghost predicate RegistryIsLive(s: State) {
    forall r | r in s.registry ::
      s.registry[r] in s.actors && Connected(s.actors[s.registry[r]], r)
  }

  predicate Connected(p: Actor, r: RowId) {
    p.Proc? && p.row == r && Registered(p.pc)
  }

  lemma ActEntry(a: ActorId, actor: Actor, w: View, rivals: bool, phase: Phase, c: Choice)
    requires RowActor(actor) && Holds(a, actor, w, phase)
    requires w.entry == Some(a) ==> Connected(actor, actor.row)
    ensures var e := Act(a, actor, w, rivals, c);
      && (e.view.entry == Some(a) ==> e.actor.Some? && Connected(e.actor.value, actor.row))
      && (e.view.entry.Some? && e.view.entry != Some(a) ==> e.view.entry == w.entry)
  {}

  lemma ApplyKeepsRegistry(s: State, a: ActorId, r: RowId, e: Effect)
    requires Allocated(s) && Grounded(s) && RegistryIsLive(s) && a in s.actors && OnRow(s.actors[a], r) && r in s.rows
    requires e.view.entry == Some(a) ==> e.actor.Some? && Connected(e.actor.value, r)
    requires e.view.entry.Some? && e.view.entry != Some(a) ==> e.view.entry == Lookup(s.registry, r)
    ensures RegistryIsLive(Apply(s, a, r, e))
  {
    var t := Apply(s, a, r, e);
    ApplyOwn(s, a, r, e);
    forall o | o in t.registry ensures t.registry[o] in t.actors && Connected(t.actors[t.registry[o]], o) {
      var b := t.registry[o];
      if o != r {
        assert s.registry[o] == b && b != a;
        ApplyFrame(s, a, r, e, b);
      } else if b != a {
        ApplyFrame(s, a, r, e, b);
      }
    }
  }

  lemma EventKeepsRegistry(s: State, e: Event)
    requires Inv(s) && RegistryIsLive(s) && Enabled(s, e)
    ensures RegistryIsLive(Next(s, e))
  {
    if e.Step? && RowActor(s.actors[e.actor]) {
      var actor := s.actors[e.actor];
      var w, rivals := Look(s, actor.row), Rivals(s, actor.row);
      assert Holds(e.actor, actor, w, s.phase);
      ActEntry(e.actor, actor, w, rivals, s.phase, e.choice);
      ApplyKeepsRegistry(s, e.actor, actor.row, Act(e.actor, actor, w, rivals, e.choice));
    } else {
      OtherEventsKeepRegistry(s, e);
    }
  }

  lemma OtherEventsKeepRegistry(s: State, e: Event)
    requires Allocated(s) && RegistryIsLive(s) && Enabled(s, e) && (e.Step? ==> !RowActor(s.actors[e.actor]))
    ensures RegistryIsLive(Next(s, e))
  {
    var t := Next(s, e);
    forall o | o in t.registry ensures t.registry[o] in t.actors && Connected(t.actors[t.registry[o]], o) {
      assert s.registry[o] == t.registry[o];
      assert t.registry[o] in t.actors;
      ActorFrame(s, e, t.registry[o]);
    }
  }

  // ------------------------------------------------------------------ fates --

  datatype Fate = Heeded | Undecided | Lost

  /** late: the command came after the last abort check, which also admits COMPLETED. */
  ghost predicate EndsAsAsked(outcome: Option<JobStatus>, asked: set<JobStatus>, late: bool) {
    outcome.Some? && (outcome.value in asked || (late && outcome.value == COMPLETED))
  }

  /** What has become of the commands delivered to a call, by where the call stands. */
  ghost function FateOf(p: Actor, asked: set<JobStatus>, late: bool): Fate
    requires p.Proc?
  {
    match p.pc
    case Claim(_) => Undecided
    case Begin(_) => Undecided
    case Recheck => Undecided
    case Session => Undecided
    case Work => Heeded
    case Publish => Heeded
    case Chain => Heeded
    case Finish => Heeded
    case Abort(m) => if Asks(m) in asked then Heeded else Lost
    case ReturnVideo => if CANCELED in asked then Heeded else Lost
    case Cleanup(_) => if EndsAsAsked(p.outcome, asked, late) then Heeded else Lost
    case Leave(_) => if EndsAsAsked(p.outcome, asked, late) then Heeded else Lost
    case Settle(_) => if EndsAsAsked(p.outcome, asked, late) then Heeded else Lost
    case _ => Lost
  }

  /** As long as the mode matters it is one of the delivered commands, which no work overtakes. */
  ghost predicate Minds(p: Actor, asked: set<JobStatus>, late: bool)
    requires p.Proc?
  {
    && (Registered(p.pc) || p.pc.Settle?)
    && (FateOf(p, asked, late).Undecided? || p.pc.Work? || p.pc.Publish? || p.pc.Chain? ==>
          p.mode.Some? && Asks(p.mode.value) in asked)
    && (p.pc.Publish? || p.pc.Chain? || p.pc.Finish? ==> late)
  }

  /** Past the last abort check. */
  predicate IsLate(pc: ProcPc) {
    pc.Publish? || pc.Chain? || pc.Finish? || pc.Cleanup? || pc.Leave?
  }

  /** The abort of call p cannot remove the staging directory: the fault is swallowed, with nothing written. */
  predicate WipeFault(p: Actor, c: Choice) {
    p.Proc? && p.pc == Abort(Cancel) && c.Bad?
  }

  /**
   * An open fate is decided well by the session and by nothing else; a good one is lost by a
   * wipe fault and by nothing else; a lost one stays lost.
   */
  ghost predicate FatePasses(p: Actor, q: Actor, session: bool, fault: bool, asked: set<JobStatus>, late: bool)
    requires p.Proc? && q.Proc?
  {
    match FateOf(p, asked, late)
    case Undecided => FateOf(q, asked, late).Heeded? <==> session
    case Heeded => FateOf(q, asked, late) == if fault then Lost else Heeded
    case Lost => FateOf(q, asked, late).Lost?
  }

  lemma ActFate(a: ActorId, p: Actor, w: View, asked: set<JobStatus>, late: bool, c: Choice)
    requires p.Proc? && ProcHolds(a, p, w) && Minds(p, asked, late) && asked <= {CANCELED, PAUSED}
    ensures var e := ProcAct(a, p, w, c);
      e.actor.Some? ==>
        && e.actor.value.Proc? && e.actor.value.row == p.row && Minds(e.actor.value, asked, late)
        && FatePasses(p, e.actor.value, p.pc.Session? && c.Good?, WipeFault(p, c), asked, late)
  {}

  /** A command that is delivered meanwhile only replaces another one. */
  lemma ModeKeepsFate(p: Actor, mode: Option<Mode>, asked: set<JobStatus>, late: bool)
    requires p.Proc? && Minds(p, asked, late)
    requires mode != p.mode && p.mode.Some? ==> mode.Some? && Asks(mode.value) in asked
    ensures Minds(p.(mode := mode), asked, late) && FatePasses(p, p.(mode := mode), false, false, asked, late)
  {}

  // ------------------------------------------------------------------- runs --

  /** Every command delivered to row r in this run asks for one of these statuses. */
  ghost predicate OnlyAsked(s: State, events: seq<Event>, r: RowId, asked: set<JobStatus>)
    requires IsRun(s, events)
    decreases |events|
  {
    events == [] ||
    (AsksFor(s, events[0], r, asked) && OnlyAsked(Next(s, events[0]), events[1..], r, asked))
  }

  ghost predicate AsksFor(s: State, e: Event, r: RowId, asked: set<JobStatus>)
    requires Enabled(s, e)
  {
    e.Step? && s.actors[e.actor].Message? && s.actors[e.actor].row == r ==> Asks(s.actors[e.actor].signal) in asked
  }

  /** In this run call a obtains the owner session. */
  ghost predicate GetsSession(s: State, events: seq<Event>, a: ActorId)
    requires IsRun(s, events)
    decreases |events|
  {
    events != [] && (TakesSession(s, events[0], a) || GetsSession(Next(s, events[0]), events[1..], a))
  }

  ghost predicate TakesSession(s: State, e: Event, a: ActorId)
    requires Enabled(s, e)
  {
    e == Step(a, Good) && s.actors[a].Proc? && s.actors[a].pc.Session?
  }

  /** In this run the abort of call a meets a wipe fault. */
  ghost predicate FailsToWipe(s: State, events: seq<Event>, a: ActorId)
    requires IsRun(s, events)
    decreases |events|
  {
    events != [] && (FaultsInWipe(s, events[0], a) || FailsToWipe(Next(s, events[0]), events[1..], a))
  }

  ghost predicate FaultsInWipe(s: State, e: Event, a: ActorId)
    requires Enabled(s, e)
  {
    e.Step? && e.actor == a && WipeFault(s.actors[a], e.choice)
  }

  /** The call, if it still lives, minds the commands delivered to it. */
  ghost predicate Listening(s: State, a: ActorId, r: RowId, asked: set<JobStatus>, late: bool) {
    a < s.clock &&
    (a in s.actors ==> s.actors[a].Proc? && s.actors[a].row == r && Minds(s.actors[a], asked, late))
  }

  ghost predicate Controlled(s: State) {
    Inv(s) && RegistryIsLive(s)
  }

  lemma EventKeepsControlled(s: State, e: Event)
    requires Controlled(s) && Enabled(s, e) && Orderly(s, e)
    ensures Controlled(Next(s, e))
  {
    EventKeepsInv(s, e);
    EventKeepsRegistry(s, e);
  }

  lemma {:induction false} RunKeepsControlled(s: State, events: seq<Event>)
    requires Controlled(s) && IsOrderlyRun(s, events)
    ensures IsRun(s, events) && Controlled(After(s, events))
    decreases |events|
  {
    if events != [] {
      EventKeepsControlled(s, events[0]);
      RunKeepsControlled(Next(s, events[0]), events[1..]);
    }
  }

  lemma OwnStepListens(s: State, a: ActorId, asked: set<JobStatus>, late: bool, c: Choice)
    requires Inv(s) && Enabled(s, Step(a, c)) && asked <= {CANCELED, PAUSED}
    requires s.actors[a].Proc? && Minds(s.actors[a], asked, late)
    ensures var t := Next(s, Step(a, c));
      a in t.actors ==>
        t.actors[a].Proc? && t.actors[a].row == s.actors[a].row && Minds(t.actors[a], asked, late) &&
        FatePasses(s.actors[a], t.actors[a], TakesSession(s, Step(a, c), a), FaultsInWipe(s, Step(a, c), a),
                   asked, late)
  {
    var w := Look(s, s.actors[a].row);
    assert ProcHolds(a, s.actors[a], w);
    ActFate(a, s.actors[a], w, asked, late, c);
    ApplyOwn(s, a, s.actors[a].row, ProcAct(a, s.actors[a], w, c));
  }

  lemma OthersKeepFate(s: State, e: Event, a: ActorId, asked: set<JobStatus>, late: bool)
    requires Allocated(s) && RegistryIsLive(s) && Enabled(s, e) && !(e.Step? && e.actor == a)
    requires a in s.actors && s.actors[a].Proc? && Minds(s.actors[a], asked, late)
    requires AsksFor(s, e, s.actors[a].row, asked) && a in Next(s, e).actors
    ensures var q := Next(s, e).actors[a];
      q.Proc? && q.row == s.actors[a].row && Minds(q, asked, late) &&
      FatePasses(s.actors[a], q, false, false, asked, late)
  {
    ActorFrame(s, e, a);
    ModeKeepsFate(s.actors[a], Next(s, e).actors[a].mode, asked, late);
  }

  lemma EventMovesFate(s: State, e: Event, a: ActorId, r: RowId, asked: set<JobStatus>, late: bool)
    requires Controlled(s) && Enabled(s, e) && asked <= {CANCELED, PAUSED}
    requires Listening(s, a, r, asked, late) && AsksFor(s, e, r, asked)
    ensures Listening(Next(s, e), a, r, asked, late)
    ensures a in Next(s, e).actors ==>
      a in s.actors &&
      FatePasses(s.actors[a], Next(s, e).actors[a], TakesSession(s, e, a), FaultsInWipe(s, e, a), asked, late)
  {
    assert Next(s, e).clock >= s.clock;
    if a !in s.actors {
      DeadStaysDead(s, e, a);
    } else if e.Step? && e.actor == a {
      OwnStepListens(s, a, asked, late, e.choice);
    } else if a in Next(s, e).actors {
      OthersKeepFate(s, e, a, asked, late);
    }
  }

  /** The call was going to end as asked, or was still before its session and obtained it. */
  ghost predicate Decided(s: State, events: seq<Event>, a: ActorId, asked: set<JobStatus>, late: bool)
    requires IsRun(s, events) && a in s.actors && s.actors[a].Proc?
  {
    (FateOf(s.actors[a], asked, late).Heeded? ||
     (FateOf(s.actors[a], asked, late).Undecided? && GetsSession(s, events, a))) &&
    !FailsToWipe(s, events, a)
  }

  ghost predicate Settled(s: State, a: ActorId, asked: set<JobStatus>, late: bool) {
    a in s.actors ==> s.actors[a].Proc? && !FateOf(s.actors[a], asked, late).Undecided?
  }

  /** A call that is gone or whose fate is decided does not obtain a session any more. */
  lemma {:induction false} SettledGetsNoSession(s: State, events: seq<Event>, a: ActorId, r: RowId,
          asked: set<JobStatus>, late: bool)
    requires Controlled(s) && IsOrderlyRun(s, events) && IsRun(s, events) && asked <= {CANCELED, PAUSED}
    requires Listening(s, a, r, asked, late) && OnlyAsked(s, events, r, asked) && Settled(s, a, asked, late)
    ensures !GetsSession(s, events, a)
    decreases |events|
  {
    if events != [] {
      EventKeepsControlled(s, events[0]);
      EventMovesFate(s, events[0], a, r, asked, late);
      SettledGetsNoSession(Next(s, events[0]), events[1..], a, r, asked, late);
    }
  }

  /** One event further: the fate passes on, the session is still ahead or was just obtained. */
  lemma DecidedPasses(s: State, events: seq<Event>, a: ActorId, asked: set<JobStatus>, late: bool)
    requires IsRun(s, events) && events != [] && a in s.actors && s.actors[a].Proc?
    requires a in Next(s, events[0]).actors && Next(s, events[0]).actors[a].Proc?
    requires FatePasses(s.actors[a], Next(s, events[0]).actors[a], TakesSession(s, events[0], a),
                        FaultsInWipe(s, events[0], a), asked, late)
    requires Settled(Next(s, events[0]), a, asked, late) ==> !GetsSession(Next(s, events[0]), events[1..], a)
    ensures Decided(s, events, a, asked, late) <==> Decided(Next(s, events[0]), events[1..], a, asked, late)
  {}

  /** However the run goes on: a call that has come to its end ended as asked exactly when its fate says so. */
  lemma {:induction false} RunDecides(s: State, events: seq<Event>, a: ActorId, r: RowId, asked: set<JobStatus>,
          late: bool)
    requires Controlled(s) && IsOrderlyRun(s, events) && IsRun(s, events) && asked <= {CANCELED, PAUSED}
    requires Listening(s, a, r, asked, late) && OnlyAsked(s, events, r, asked)
    ensures Listening(After(s, events), a, r, asked, late)
    ensures a in After(s, events).actors ==> a in s.actors
    ensures a in After(s, events).actors && After(s, events).actors[a].pc.Settle? ==>
      (FateOf(After(s, events).actors[a], asked, late).Heeded? <==> Decided(s, events, a, asked, late))
    decreases |events|
  {
    if events != [] {
      var e := events[0];
      var t := Next(s, e);
      EventKeepsControlled(s, e);
      EventMovesFate(s, e, a, r, asked, late);
      RunDecides(t, events[1..], a, r, asked, late);
      if a in After(s, events).actors {
        if Settled(t, a, asked, late) { SettledGetsNoSession(t, events[1..], a, r, asked, late); }
        DecidedPasses(s, events, a, asked, late);
      }
    }
  }

  // ------------------------------------------------------------ main results --

  /** The next event delivers command m to the registered call a. */
  ghost predicate Delivers(s: State, m: ActorId, c: Choice, a: ActorId) {
    Enabled(s, Step(m, c)) && s.actors[m].Message? && a in s.actors && Connected(s.actors[a], s.actors[m].row)
  }

  lemma DeliveryConnects(s: State, m: ActorId, c: Choice, a: ActorId)
    requires Inv(s) && Delivers(s, m, c, a)
    ensures var t := Next(s, Step(m, c));
      t.clock == s.clock && a < s.clock &&
      t.actors == (s.actors - {m})[a := s.actors[a].(mode := Some(s.actors[m].signal))]
  {
    assert ProcHolds(a, s.actors[a], Look(s, s.actors[a].row));
  }

  /** Where a command that finds the call at this point takes it. */
  ghost predicate HeedsFrom(p: Actor, asked: set<JobStatus>, session: bool)
    requires p.Proc?
  {
    match p.pc
    case Claim(_) => session
    case Begin(_) => session
    case Recheck => session
    case Session => session
    case Work => true
    case Publish => true
    case Chain => true
    case Finish => true
    case Abort(m) => Asks(m) in asked
    case ReturnVideo => CANCELED in asked
    case Cleanup(_) => EndsAsAsked(p.outcome, asked, true)
    case Leave(_) => EndsAsAsked(p.outcome, asked, true)
    case _ => false
  }

  lemma CommandedCallMinds(p: Actor, m: Mode, asked: set<JobStatus>, session: bool)
    requires p.Proc? && Registered(p.pc) && Asks(m) in asked
    ensures var q := p.(mode := Some(m));
      var fate := FateOf(q, asked, IsLate(p.pc));
      Minds(q, asked, IsLate(p.pc)) && (fate.Heeded? || (fate.Undecided? && session) <==> HeedsFrom(p, asked, session))
  {}

  lemma AfterDelivery(s: State, m: ActorId, c: Choice, a: ActorId, asked: set<JobStatus>)
    requires Controlled(s) && Delivers(s, m, c, a) && Asks(s.actors[m].signal) in asked
    ensures var u := Next(s, Step(m, c));
      && Controlled(u) && a < u.clock
      && a in u.actors && u.actors[a] == s.actors[a].(mode := Some(s.actors[m].signal))
  {
    DeliveryConnects(s, m, c, a);
    EventKeepsControlled(s, Step(m, c));
  }

  /** The call p has just been told to stop. */
  lemma CommandedCallEnds(u: State, later: seq<Event>, a: ActorId, p: Actor, m: Mode, asked: set<JobStatus>)
    requires Controlled(u) && a < u.clock && a in u.actors && p.Proc? && u.actors[a] == p.(mode := Some(m))
    requires Registered(p.pc) && Asks(m) in asked && asked <= {CANCELED, PAUSED}
    requires IsOrderlyRun(u, later) && IsRun(u, later) && OnlyAsked(u, later, p.row, asked)
    ensures var t := After(u, later);
      a in t.actors && t.actors[a].Proc? && t.actors[a].pc.Settle? ==>
        (EndsAsAsked(t.actors[a].outcome, asked, IsLate(p.pc)) <==>
         HeedsFrom(p, asked, GetsSession(u, later, a)) && !FailsToWipe(u, later, a))
  {
    CommandedCallMinds(p, m, asked, GetsSession(u, later, a));
    RunDecides(u, later, a, p.row, asked, IsLate(p.pc));
  }

  // --------------------------------------------------------------- without a retry --

  /** In this run removing the session's cookie file throws under call a, which makes BullMQ retry it. */
  ghost predicate FailsToClean(s: State, events: seq<Event>, a: ActorId)
    requires IsRun(s, events)
    decreases |events|
  {
    events != [] && (FaultsInCleanup(s, events[0], a) || FailsToClean(Next(s, events[0]), events[1..], a))
  }

  ghost predicate FaultsInCleanup(s: State, e: Event, a: ActorId)
    requires Enabled(s, e)
  {
    e.Step? && e.actor == a && s.actors[a].Proc? && s.actors[a].pc.Cleanup? && e.choice.Bad?
  }

  /** A call that stopped as an owner can ask, or finished, ends without a throw. */
  ghost predicate Quiet(p: Actor) {
    p.Proc? && (p.pc.Leave? || p.pc.Settle?) && EndsAsAsked(p.outcome, {CANCELED, PAUSED}, true) ==> p.pc.exit == Return
  }

  lemma ActStaysQuiet(a: ActorId, p: Actor, w: View, c: Choice)
    requires p.Proc? && ProcHolds(a, p, w) && Quiet(p) && !(p.pc.Cleanup? && c.Bad?)
    requires Registered(p.pc) || p.pc.Settle?
    ensures var e := ProcAct(a, p, w, c);
      e.actor.Some? ==> Quiet(e.actor.value) && e.actor.value.Proc? &&
                        (Registered(e.actor.value.pc) || e.actor.value.pc.Settle?)
  {}

  /** Still on its way out quietly, if it lives. */
  ghost predicate GoesQuietly(s: State, a: ActorId) {
    a < s.clock &&
    (a in s.actors ==>
       s.actors[a].Proc? && Quiet(s.actors[a]) && (Registered(s.actors[a].pc) || s.actors[a].pc.Settle?))
  }

  lemma EventStaysQuiet(s: State, e: Event, a: ActorId)
    requires Inv(s) && Enabled(s, e) && GoesQuietly(s, a) && !FaultsInCleanup(s, e, a)
    ensures GoesQuietly(Next(s, e), a)
  {
    assert Next(s, e).clock >= s.clock;
    if a !in s.actors {
      DeadStaysDead(s, e, a);
    } else if e.Step? && e.actor == a {
      var w := Look(s, s.actors[a].row);
      assert ProcHolds(a, s.actors[a], w);
      ActStaysQuiet(a, s.actors[a], w, e.choice);
      ApplyOwn(s, a, s.actors[a].row, ProcAct(a, s.actors[a], w, e.choice));
    } else if a in Next(s, e).actors {
      ActorFrame(s, e, a);
    }
  }

  lemma {:induction false} RunStaysQuiet(s: State, events: seq<Event>, a: ActorId)
    requires Inv(s) && IsOrderlyRun(s, events) && IsRun(s, events) && GoesQuietly(s, a) && !FailsToClean(s, events, a)
    ensures GoesQuietly(After(s, events), a)
    decreases |events|
  {
    if events != [] {
      EventKeepsInv(s, events[0]);
      EventStaysQuiet(s, events[0], a);
      RunStaysQuiet(Next(s, events[0]), events[1..], a);
    }
  }

  /** How call p, told to stop before the run, has ended. */
  ghost predicate EndedExactly(u: State, later: seq<Event>, a: ActorId, p: Actor, asked: set<JobStatus>)
    requires IsRun(u, later) && p.Proc?
  {
    var t := After(u, later);
    a in t.actors && t.actors[a].Proc? && t.actors[a].pc.Settle? ==>
      && (EndsAsAsked(t.actors[a].outcome, asked, IsLate(p.pc)) <==>
          HeedsFrom(p, asked, GetsSession(u, later, a)) && !FailsToWipe(u, later, a))
      && (EndsAsAsked(t.actors[a].outcome, asked, IsLate(p.pc)) && !p.pc.Leave? && !FailsToClean(u, later, a) ==>
            t.actors[a].pc.exit == Return)
  }

  lemma CommandedCallEndsExactly(u: State, later: seq<Event>, a: ActorId, p: Actor, m: Mode, asked: set<JobStatus>)
    requires Controlled(u) && a < u.clock && a in u.actors && p.Proc? && u.actors[a] == p.(mode := Some(m))
    requires Registered(p.pc) && Asks(m) in asked && asked <= {CANCELED, PAUSED}
    requires IsOrderlyRun(u, later) && IsRun(u, later) && OnlyAsked(u, later, p.row, asked)
    ensures EndedExactly(u, later, a, p, asked)
  {
    CommandedCallEnds(u, later, a, p, m, asked);
    if !p.pc.Leave? && !FailsToClean(u, later, a) { RunStaysQuiet(u, later, a); }
  }

  /**
   * The fate of a delivered command, for every point at which it can find a registered
   * call and every orderly continuation: the call ends with a status that was asked for
   * (COMPLETED too, past the last abort check) if and only if the command found it at work
   * or later, or before the work and the call then obtained its session, or the call was
   * already ending that way, and removing the staging directory did not throw. It then ends
   * without a retry, unless removing the cookie file throws. A command that finds the call
   * between a failure and its last write (Requeue, FailVideo, FailRow, Refuse) is lost,
   * and so is one that is followed by a refused claim, a refused row or a session fault.
   */
  lemma DeliveredCommandDecides(s: State, m: ActorId, c: Choice, a: ActorId, later: seq<Event>, asked: set<JobStatus>)
    requires Controlled(s) && Delivers(s, m, c, a)
    requires IsOrderlyRun(Next(s, Step(m, c)), later) && IsRun(Next(s, Step(m, c)), later)
    requires asked <= {CANCELED, PAUSED} && Asks(s.actors[m].signal) in asked
    requires OnlyAsked(Next(s, Step(m, c)), later, s.actors[a].row, asked)
    ensures EndedExactly(Next(s, Step(m, c)), later, a, s.actors[a], asked)
  {
    AfterDelivery(s, m, c, a, asked);
    CommandedCallEndsExactly(Next(s, Step(m, c)), later, a, s.actors[a], s.actors[m].signal, asked);
  }

  // --------------------------------------------------------- what a lost one meets --

  /** Past these points a call looks neither at its mode nor at the world: the status it leaves its row with. */
  ghost function Destiny(p: Actor): Option<JobStatus>
    requires p.Proc?
  {
    match p.pc
    case Refuse => Some(FAILED)
    case Finish => Some(COMPLETED)
    case Abort(m) => if m == Cancel then None else Some(Asks(m))
    case ReturnVideo => Some(CANCELED)
    case FailVideo(_) => Some(FAILED)
    case FailRow(_) => Some(FAILED)
    case Requeue => Some(QUEUED)
    case Cleanup(_) => p.outcome
    case Leave(_) => p.outcome
    case Settle(_) => p.outcome
    case _ => None
  }

  /** ... and whether it is bound to throw. */
  ghost predicate WillThrow(p: Actor)
    requires p.Proc?
  {
    p.pc.Refuse? || p.pc.FailVideo? || p.pc.FailRow? || p.pc.Requeue? ||
    ((p.pc.Cleanup? || p.pc.Leave? || p.pc.Settle?) && p.pc.exit != Return)
  }

  /** q is p further on: nothing that was settled has changed. */
  ghost predicate Bound(p: Actor, q: Actor)
    requires p.Proc?
  {
    q.Proc? && Destiny(q) == Destiny(p) && (WillThrow(p) ==> WillThrow(q))
  }

  lemma ActKeepsDestiny(a: ActorId, p: Actor, w: View, c: Choice)
    requires p.Proc? && ProcHolds(a, p, w) && Destiny(p).Some?
    ensures var e := ProcAct(a, p, w, c); e.actor.Some? ==> Bound(p, e.actor.value)
  {}

  lemma EventKeepsDestiny(s: State, e: Event, a: ActorId)
    requires Inv(s) && Enabled(s, e) && a in s.actors && s.actors[a].Proc? && Destiny(s.actors[a]).Some?
    ensures a in Next(s, e).actors ==> Bound(s.actors[a], Next(s, e).actors[a])
  {
    if a in Next(s, e).actors {
      if e.Step? && e.actor == a {
        var w := Look(s, s.actors[a].row);
        assert ProcHolds(a, s.actors[a], w);
        ActKeepsDestiny(a, s.actors[a], w, e.choice);
        ApplyOwn(s, a, s.actors[a].row, ProcAct(a, s.actors[a], w, e.choice));
      } else {
        ActorFrame(s, e, a);
      }
    }
  }

  /**
   * What a command meets that comes too late: whatever is delivered or drained from then on,
   * the call ends as its last step already decided, QUEUED with a throw from Requeue, FAILED
   * with a throw from FailVideo, FailRow and Refuse.
   */
  lemma {:induction false} DestinyIsKept(s: State, events: seq<Event>, a: ActorId)
    requires Inv(s) && IsOrderlyRun(s, events) && IsRun(s, events)
    requires a in s.actors && s.actors[a].Proc? && Destiny(s.actors[a]).Some?
    ensures a in After(s, events).actors ==> Bound(s.actors[a], After(s, events).actors[a])
    decreases |events|
  {
    if events != [] {
      EventKeepsInv(s, events[0]);
      EventKeepsDestiny(s, events[0], a);
      if a in Next(s, events[0]).actors {
        DestinyIsKept(Next(s, events[0]), events[1..], a);
      } else {
        EventAdvances(s, events[0]);
        assert a < s.clock <= Next(s, events[0]).clock;
        StaysDead(Next(s, events[0]), events[1..], a);
      }
    }
  }

  lemma {:induction false} StaysDead(s: State, events: seq<Event>, a: ActorId)
    requires IsRun(s, events) && Allocated(s) && a < s.clock && a !in s.actors
    ensures a !in After(s, events).actors
    decreases |events|
  {
    if events != [] {
      EventAdvances(s, events[0]);
      DeadStaysDead(s, events[0], a);
      assert Next(s, events[0]).clock >= s.clock;
      StaysDead(Next(s, events[0]), events[1..], a);
    }
  }

  // -------------------------------------------------------- from the outside --

  /** The wire schema of job:control carries cancel and pause only. */
  ghost predicate WireIsClean(s: State) {
    forall a | a in s.actors && s.actors[a].Message? :: Asks(s.actors[a].signal) in {CANCELED, PAUSED}
  }

  lemma ActSends(a: ActorId, actor: Actor, w: View, rivals: bool, c: Choice)
    requires RowActor(actor)
    ensures var e := Act(a, actor, w, rivals, c);
      e.message.Some? ==> Asks(e.message.value) in {CANCELED, PAUSED}
  {}

  lemma EventKeepsWireClean(s: State, e: Event)
    requires Enabled(s, e) && Grounded(s) && WireIsClean(s)
    ensures WireIsClean(Next(s, e))
  {
    if e.Step? && RowActor(s.actors[e.actor]) {
      var actor := s.actors[e.actor];
      ActSends(e.actor, actor, Look(s, actor.row), Rivals(s, actor.row), e.choice);
      ActStaysOnRow(e.actor, actor, Look(s, actor.row), Rivals(s, actor.row), e.choice);
    }
  }

  lemma {:induction false} RunKeepsWireClean(s: State, events: seq<Event>, r: RowId)
    requires Grounded(s) && WireIsClean(s) && IsRun(s, events)
    ensures WireIsClean(After(s, events)) && OnlyAsked(s, events, r, {CANCELED, PAUSED})
    decreases |events|
  {
    if events != [] {
      EventKeepsWireClean(s, events[0]);
      EventKeepsGrounded(s, events[0]);
      RunKeepsWireClean(Next(s, events[0]), events[1..], r);
    }
  }

  lemma InitialIsControlled(s: State)
    requires Initial(s)
    ensures Controlled(s) && WireIsClean(s)
  {
    InitialInv(s);
  }

  /**
   * No lost control signal, over whole runs: after any orderly run from a state with
   * nothing queued, a cancel or pause that reaches a call stops it for good, as CANCELED
   * or PAUSED or because it had finished, in exactly those cases.
   */
  lemma NoSignalIsLost(s: State, before: seq<Event>, m: ActorId, c: Choice, a: ActorId, later: seq<Event>)
    requires Initial(s) && IsOrderlyRun(s, before) && IsRun(s, before) && Delivers(After(s, before), m, c, a)
    requires var u := Next(After(s, before), Step(m, c)); IsOrderlyRun(u, later) && IsRun(u, later)
    ensures EndedExactly(Next(After(s, before), Step(m, c)), later, a, After(s, before).actors[a], {CANCELED, PAUSED})
  {
    InitialIsControlled(s);
    RunKeepsControlled(s, before);
    RunKeepsWireClean(s, before, 0);
    var t := After(s, before);
    EventKeepsControlled(t, Step(m, c));
    EventKeepsWireClean(t, Step(m, c));
    RunKeepsWireClean(Next(t, Step(m, c)), later, t.actors[a].row);
    DeliveredCommandDecides(t, m, c, a, later, {CANCELED, PAUSED});
  }

  /**
   * Whom a command reaches: in every reachable state of an orderly run the registry has an
   * entry for a row exactly when a call on that row is between register and unregister, and
   * it names that call, the owner of the row's execution. So a RUNNING row whose execution
   * waits for a retry is deaf, and so is one whose call has not registered yet.
   */
  lemma RegistryIsExact(s: State, events: seq<Event>, r: RowId, a: ActorId)
    requires Initial(s) && IsOrderlyRun(s, events) && IsRun(s, events)
    ensures var t := After(s, events);
      && (r in t.registry && t.registry[r] == a <==> a in t.actors && Connected(t.actors[a], r))
      && (r in t.registry ==> r in t.execs && t.execs[r].life == Active(t.registry[r]))
  {
    InitialIsControlled(s);
    RunKeepsControlled(s, events);
    var t := After(s, events);
    if a in t.actors && Connected(t.actors[a], r) { assert ProcHolds(a, t.actors[a], Look(t, r)); }
    if r in t.registry { assert ProcHolds(t.registry[r], t.actors[t.registry[r]], Look(t, r)); }
  }
}
