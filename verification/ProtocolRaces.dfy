/**
 * Why the conditions are there: runs from an empty queue, event by event, in which a
 * command, a row or a video is lost. Some keep every scheduling assumption; the others drop
 * exactly one.
 */
module ProtocolRaces {
  import opened Domain
  import opened VideoStatus
  import opened DownloadProtocol
  import opened ProtocolExclusion
  import opened ProtocolVideos
  import opened ProtocolOwnership
  import opened ProtocolWakeup

  // ------------------------------------------------------------ which rule --

  ghost predicate Busy(actor: Actor) {
    OnApi(actor) || actor.RowHealer? || PendingVerdict(actor)
  }

  /** Per row one thing at a time among enqueue, owner commands, boot repair and a pending verdict. */
  ghost predicate OneAtATime(s: State, e: Event) {
    e.StartCancel? || e.StartPause? || e.StartResume? || e.HealRow? || e.FireVerdict? ==>
      forall a | a in s.actors && Busy(s.actors[a]) :: s.actors[a].row != e.row
  }

  /** SerialRun keeps both assumptions and that one too; the last two drop one assumption each. */
  datatype Rule = SerialRun | OrderlyRun | LiveStalls | LateVerdict

  ghost predicate Obeys(rule: Rule, s: State, e: Event) {
    Enabled(s, e) &&
    match rule
    case SerialRun => Orderly(s, e) && OneAtATime(s, e)
    case OrderlyRun => Orderly(s, e)
    case LiveStalls => VerdictIsQuick(s, e)
    case LateVerdict => StallIsDeath(s, e)
  }

  ghost predicate RunUnder(rule: Rule, s: State, events: seq<Event>)
    decreases |events|
  {
    events == [] || (Obeys(rule, s, events[0]) && RunUnder(rule, Next(s, events[0]), events[1..]))
  }

  lemma {:induction false} Append(rule: Rule, s: State, events: seq<Event>, e: Event)
    requires RunUnder(rule, s, events) && IsRun(s, events) && Obeys(rule, After(s, events), e)
    ensures RunUnder(rule, s, events + [e]) && IsRun(s, events + [e])
    ensures After(s, events + [e]) == Next(After(s, events), e)
    decreases |events|
  {
    if events == [] {
      assert [e][1..] == [];
    } else {
      assert (events + [e])[1..] == events[1..] + [e];
      Append(rule, Next(s, events[0]), events[1..], e);
    }
  }

  // ----------------------------------------------------------------- scenes --

  /** A world with one video and its one row, both numbered 0. */
  datatype Scene = Scene(phase: Phase, view: View, actors: map<ActorId, Actor>, clock: nat) {
    function World(): State {
      State(phase, map[0 := Row(0, view.status)], map[0 := view.copy], Put(map[], 0, view.exec), actors,
            Put(map[], 0, view.entry), {}, clock)
    }
  }

  function Empty(phase: Phase): State {
    State(phase, map[], map[0 := Candidate], map[], map[], map[], {}, 0)
  }

  /** From an empty queue exactly these events, all within the rule, lead to the scene. */
  ghost predicate RunsTo(rule: Rule, events: seq<Event>, x: Scene) {
    RunUnder(rule, Empty(Down), events) && IsRun(Empty(Down), events) && After(Empty(Down), events) == x.World()
  }

  /** Equal field by field. */
  ghost predicate Same(s: State, t: State) {
    s.phase == t.phase && s.rows == t.rows && s.videos == t.videos && s.execs == t.execs &&
    s.actors == t.actors && s.registry == t.registry && s.abandoned == t.abandoned && s.clock == t.clock
  }

  /** A video has just been enqueued by call 1; the worker is up or still booting. */
  function Enqueued(phase: Phase): Scene {
    Scene(phase, View(QUEUED, Queued, None, None), map[1 := Enqueuer(0, EnqueueAdd)], 2)
  }

  function Start(phase: Phase): seq<Event> {
    if phase == Up then [Boot, Ready, EnqueueVideo(0)] else [Boot, EnqueueVideo(0)]
  }

  type Reached = (Scene, seq<Event>) -> bool

  /** A set of scripts that holds the two starts and is closed under every event the rule allows. */
  ghost predicate Closed(rule: Rule, at: Reached) {
    at(Enqueued(Up), Start(Up)) && at(Enqueued(Booting), Start(Booting)) &&
    forall x: Scene, y: Scene, es, e ::
      at(x, es) && Obeys(rule, x.World(), e) && Same(Next(x.World(), e), y.World()) ==> at(y, es + [e])
  }

  lemma StartIsRun(rule: Rule, phase: Phase)
    requires phase != Down
    ensures RunsTo(rule, Start(phase), Enqueued(phase))
  {
    var s := Empty(Down);
    assert RunUnder(rule, s, []) && IsRun(s, []) && After(s, []) == s;
    Append(rule, s, [], Boot);
    assert [] + [Boot] == [Boot];
    assert Same(Next(s, Boot), Empty(Booting));
    var es := [Boot];
    if phase == Up {
      Append(rule, s, es, Ready);
      es := es + [Ready];
      assert Same(Next(Empty(Booting), Ready), Empty(Up));
    }
    EnqueueWorld(phase);
    Append(rule, s, es, EnqueueVideo(0));
    assert es + [EnqueueVideo(0)] == Start(phase);
  }

  lemma EnqueueWorld(phase: Phase)
    ensures Enabled(Empty(phase), EnqueueVideo(0))
    ensures Same(Next(Empty(phase), EnqueueVideo(0)), Enqueued(phase).World())
  {}

  lemma RunsAreClosed(rule: Rule)
    ensures Closed(rule, (x, es) => RunsTo(rule, es, x))
  {
    StartIsRun(rule, Up);
    StartIsRun(rule, Booting);
    forall x: Scene, y: Scene, es, e |
      RunsTo(rule, es, x) && Obeys(rule, x.World(), e) && Same(Next(x.World(), e), y.World())
      ensures RunsTo(rule, es + [e], y)
    {
      Append(rule, Empty(Down), es, e);
    }
  }

  /** One more event. */
  lemma Go(rule: Rule, at: Reached, x: Scene, es: seq<Event>, e: Event, y: Scene)
    requires Closed(rule, at) && at(x, es) && Obeys(rule, x.World(), e) && Same(Next(x.World(), e), y.World())
    ensures at(y, es + [e])
  {}

  // ------------------------------------------------- events of a one-row world --

  lemma LookWorld(x: Scene)
    ensures Look(x.World(), 0) == x.view && !Rivals(x.World(), 0)
  {}

  lemma DoStep(rule: Rule, at: Reached, x: Scene, es: seq<Event>, a: ActorId, c: Choice)
    returns (y: Scene, fs: seq<Event>)
    requires Closed(rule, at) && at(x, es) && a in x.actors && RowActor(x.actors[a]) && x.actors[a].row == 0
    requires !rule.LateVerdict? && AboutToAdd(x.actors[a]) ==>
      forall b | b in x.actors :: !PendingVerdict(x.actors[b])
    requires Act(a, x.actors[a], x.view, false, c).message.None?
    ensures var e := Act(a, x.actors[a], x.view, false, c);
      y == Scene(x.phase, e.view, Put(x.actors, a, e.actor), x.clock)
    ensures fs == es + [Step(a, c)] && at(y, fs)
  {
    LookWorld(x);
    var e := Act(a, x.actors[a], x.view, false, c);
    y, fs := Scene(x.phase, e.view, Put(x.actors, a, e.actor), x.clock), es + [Step(a, c)];
    ApplyWorld(x, a, e);
    Go(rule, at, x, es, Step(a, c), y);
  }

  lemma ApplyWorld(x: Scene, a: ActorId, e: Effect)
    requires a in x.actors && e.message.None?
    ensures Same(Apply(x.World(), a, 0, e), Scene(x.phase, e.view, Put(x.actors, a, e.actor), x.clock).World())
  {}

  lemma DoActivate(rule: Rule, at: Reached, x: Scene, es: seq<Event>)
    returns (y: Scene, fs: seq<Event>)
    requires Closed(rule, at) && at(x, es) && x.phase == Up
    requires x.view.exec.Some? && x.view.exec.value.life == Pending
    ensures var n := x.view.exec.value;
      y == Scene(Up, x.view.(exec := Some(Exec(Active(x.clock), n.started + 1, n.failures))),
                 x.actors[x.clock := Proc(0, n.started + 1, n.failures, ReadVideo, None, None)], x.clock + 1)
    ensures fs == es + [Activate(0)] && at(y, fs)
  {
    var n := x.view.exec.value;
    y, fs := Scene(Up, x.view.(exec := Some(Exec(Active(x.clock), n.started + 1, n.failures))),
                   x.actors[x.clock := Proc(0, n.started + 1, n.failures, ReadVideo, None, None)], x.clock + 1),
             es + [Activate(0)];
    Go(rule, at, x, es, Activate(0), y);
  }

  /** The actor an owner command, or the boot sweep's visit, starts on row 0. */
  function Visitor(e: Event, x: Scene): Option<Actor> {
    match e
    case StartCancel(r) => if r == 0 then Some(Canceller(0, CancelRead)) else None
    case StartPause(r) => if r == 0 then Some(Pauser(0, PauseRead)) else None
    case StartResume(r) => if r == 0 then Some(Resumer(0, ResumeRead)) else None
    case HealRow(r) =>
      if r == 0 && x.phase == Booting && (x.view.status == QUEUED || x.view.status == RUNNING)
      then Some(RowHealer(0, x.view.status, HealCheck)) else None
    case _ => None
  }

  lemma DoStart(rule: Rule, at: Reached, x: Scene, es: seq<Event>, e: Event)
    returns (y: Scene, fs: seq<Event>)
    requires Closed(rule, at) && at(x, es) && Visitor(e, x).Some?
    requires rule.SerialRun? ==> forall a | a in x.actors :: !Busy(x.actors[a])
    ensures y == x.(actors := x.actors[x.clock := Visitor(e, x).value], clock := x.clock + 1)
    ensures fs == es + [e] && at(y, fs)
  {
    y, fs := x.(actors := x.actors[x.clock := Visitor(e, x).value], clock := x.clock + 1), es + [e];
    Go(rule, at, x, es, e, y);
  }

  /** An execution is declared stalled; when it is picked up the failed listener's call begins. */
  lemma DoStall(rule: Rule, at: Reached, x: Scene, es: seq<Event>)
    returns (y: Scene, fs: seq<Event>)
    requires Closed(rule, at) && at(x, es) && x.phase == Up
    requires x.view.exec.Some? && x.view.exec.value.life.Active?
    requires rule.LiveStalls? || x.view.exec.value.life.owner !in x.actors
    requires rule.SerialRun? ==> forall a | a in x.actors :: !Busy(x.actors[a])
    ensures y == x.(view := x.view.(exec := None), actors := x.actors[x.clock := Verdict(0, VerdictRead)],
                    clock := x.clock + 1)
    ensures fs == es + [Stall(0)] + [FireVerdict(0)] && at(y, fs)
  {
    var mid := x.(view := x.view.(exec := Some(x.view.exec.value.(life := Doomed))));
    y := x.(view := x.view.(exec := None), actors := x.actors[x.clock := Verdict(0, VerdictRead)],
            clock := x.clock + 1);
    Go(rule, at, x, es, Stall(0), mid);
    Go(rule, at, mid, es + [Stall(0)], FireVerdict(0), y);
    fs := es + [Stall(0)] + [FireVerdict(0)];
  }

  lemma DoSend(rule: Rule, at: Reached, x: Scene, es: seq<Event>, q: ActorId)
    returns (y: Scene, fs: seq<Event>)
    requires Closed(rule, at) && at(x, es) && q in x.actors && x.actors[q] == Canceller(0, CancelSignal)
    ensures y == x.(actors := (x.actors - {q})[x.clock := Message(0, Cancel)], clock := x.clock + 1)
    ensures fs == es + [Step(q, Good)] && at(y, fs)
  {
    LookWorld(x);
    y := x.(actors := (x.actors - {q})[x.clock := Message(0, Cancel)], clock := x.clock + 1);
    fs := es + [Step(q, Good)];
    Go(rule, at, x, es, Step(q, Good), y);
  }

  /** The message reaches the registered call, or nobody. */
  lemma DoDeliver(rule: Rule, at: Reached, x: Scene, es: seq<Event>, m: ActorId)
    returns (y: Scene, fs: seq<Event>)
    requires Closed(rule, at) && at(x, es) && m in x.actors && x.actors[m] == Message(0, Cancel)
    requires x.view.entry.Some? ==> x.view.entry.value in x.actors && x.actors[x.view.entry.value].Proc?
    ensures var others := x.actors - {m};
      y == x.(actors := if x.view.entry.None? then others
                        else others[x.view.entry.value := x.actors[x.view.entry.value].(mode := Some(Cancel))])
    ensures fs == es + [Step(m, Good)] && at(y, fs)
  {
    var others := x.actors - {m};
    y := x.(actors := if x.view.entry.None? then others
                      else others[x.view.entry.value := x.actors[x.view.entry.value].(mode := Some(Cancel))]);
    fs := es + [Step(m, Good)];
    Go(rule, at, x, es, Step(m, Good), y);
  }

  /** The worker's process dies, with all the actors there are, none of which owes a hop. */
  lemma DoCrash(rule: Rule, at: Reached, x: Scene, es: seq<Event>)
    returns (y: Scene, fs: seq<Event>)
    requires Closed(rule, at) && at(x, es)
    requires forall a | a in x.actors :: OnWorker(x.actors[a]) && !OwesHop(x.actors[a], x.view.copy)
    ensures y == Scene(Down, x.view.(entry := None), map[], x.clock)
    ensures fs == es + [CrashWorker] && at(y, fs)
  {
    y, fs := Scene(Down, x.view.(entry := None), map[], x.clock), es + [CrashWorker];
    var t := Next(x.World(), CrashWorker);
    assert t.actors == map[];
    assert t.abandoned == {};
    Go(rule, at, x, es, CrashWorker, y);
  }

  lemma DoPhase(rule: Rule, at: Reached, x: Scene, es: seq<Event>, e: Event)
    returns (y: Scene, fs: seq<Event>)
    requires Closed(rule, at) && at(x, es)
    requires if e == Boot then x.phase == Down
             else e == Ready && x.phase == Booting &&
                  forall a | a in x.actors :: !x.actors[a].RowHealer? && !x.actors[a].VideoHealer?
    ensures y == x.(phase := if e == Boot then Booting else Up)
    ensures fs == es + [e] && at(y, fs)
  {
    y, fs := x.(phase := if e == Boot then Booting else Up), es + [e];
    Go(rule, at, x, es, e, y);
  }

  /** What BullMQ keeps of an execution when call p has ended. */
  function Remains(p: Actor, exit: Exit): Option<Exec>
    requires p.Proc?
  {
    if exit == Throw && !LastAttempt(p) then Some(Exec(Pending, p.started, p.failures + 1)) else None
  }

  /** Call p removes its cookie file, leaves the registry and ends. */
  lemma DoExit(rule: Rule, at: Reached, x: Scene, es: seq<Event>, p: ActorId) returns (y: Scene, fs: seq<Event>)
    requires Closed(rule, at) && at(x, es)
    requires p in x.actors && x.actors[p].Proc? && x.actors[p].row == 0 && x.actors[p].pc.Cleanup?
    requires x.view.exec == Some(Exec(Active(p), x.actors[p].started, x.actors[p].failures))
    ensures y == Scene(x.phase, x.view.(exec := Remains(x.actors[p], x.actors[p].pc.exit), entry := None),
                       x.actors - {p}, x.clock)
    ensures fs == es + [Step(p, Good), Step(p, Good), Step(p, Good)] && at(y, fs)
  {
    var exit := x.actors[p].pc.exit;
    var x1, es1 := DoStep(rule, at, x, es, p, Good);
    assert x1 == x.(actors := x.actors[p := x.actors[p].(pc := Leave(exit))]);
    var x2, es2 := DoStep(rule, at, x1, es1, p, Good);
    assert x2.actors == x.actors[p := x.actors[p].(pc := Settle(exit))];
    y, fs := DoStep(rule, at, x2, es2, p, Good);
    assert y.actors == x.actors - {p};
    assert fs == es + [Step(p, Good), Step(p, Good), Step(p, Good)];
  }

  // ------------------------------------------------------- the first download --

  /** Call 2 holds the execution and stands right before its claim. */
  function ClaimScript(): seq<Event> {
    Start(Up) + [Step(1, Good), Activate(0), Step(2, Good), Step(2, Good)]
  }

  const BeforeClaim := Scene(Up, View(QUEUED, Queued, Some(Exec(Active(2), 1, 0)), Some(2)),
                             map[2 := Proc(0, 1, 0, Claim(Queued), None, None)], 3)

  lemma ReachClaim(rule: Rule, at: Reached)
    requires Closed(rule, at)
    ensures at(BeforeClaim, ClaimScript())
  {
    var x, es := Enqueued(Up), Start(Up);
    x, es := DoStep(rule, at, x, es, 1, Good);
    x, es := DoActivate(rule, at, x, es);
    x, es := DoStep(rule, at, x, es, 2, Good);
    x, es := DoStep(rule, at, x, es, 2, Good);
    assert x == BeforeClaim && es == ClaimScript();
  }

  /** Call 2 has claimed the row and begun the video. */
  function BeginScript(): seq<Event> {
    ClaimScript() + [Step(2, Good), Step(2, Good)]
  }

  const Begun := Scene(Up, View(RUNNING, Downloading, Some(Exec(Active(2), 1, 0)), Some(2)),
                       map[2 := Proc(0, 1, 0, Session, None, Some(RUNNING))], 3)

  lemma ReachBegun(rule: Rule, at: Reached)
    requires Closed(rule, at)
    ensures at(Begun, BeginScript())
  {
    ReachClaim(rule, at);
    var x, es := BeforeClaim, ClaimScript();
    x, es := DoStep(rule, at, x, es, 2, Good);
    x, es := DoStep(rule, at, x, es, 2, Good);
    assert x == Begun && es == BeginScript();
  }

  // ------------------------------------------------------- a command is lost --

  /** A cancel is sent and reaches call 2 before it has its session. */
  function CancelScript(): seq<Event> {
    BeginScript() + [StartCancel(0), Step(3, Good), Step(3, Good), Step(4, Good)]
  }

  const CancelHeard := Scene(Up, View(RUNNING, Downloading, Some(Exec(Active(2), 1, 0)), Some(2)),
                             map[2 := Proc(0, 1, 0, Session, Some(Cancel), Some(RUNNING))], 5)

  lemma ReachCancelHeard(rule: Rule, at: Reached)
    requires Closed(rule, at)
    ensures at(CancelHeard, CancelScript())
  {
    ReachBegun(rule, at);
    var x, es := Begun, BeginScript();
    x, es := DoStart(rule, at, x, es, StartCancel(0));
    x, es := DoStep(rule, at, x, es, 3, Good);
    x, es := DoSend(rule, at, x, es, 3);
    x, es := DoDeliver(rule, at, x, es, 4);
    assert x.actors == CancelHeard.actors && es == CancelScript();
  }

  /** Obtaining the session throws. */
  function SessionFaultScript(): seq<Event> {
    CancelScript() + [Step(2, Bad(false)), Step(2, Good), Step(2, Good)]
  }

  const RetryPending := Scene(Up, View(RUNNING, Downloading, Some(Exec(Pending, 1, 1)), None), map[], 5)

  lemma ReachSessionFault(rule: Rule, at: Reached)
    requires Closed(rule, at)
    ensures at(CancelHeard, CancelScript()) && at(RetryPending, SessionFaultScript())
  {
    ReachCancelHeard(rule, at);
    var x, es := CancelHeard, CancelScript();
    x, es := DoStep(rule, at, x, es, 2, Bad(false));
    x, es := DoStep(rule, at, x, es, 2, Good);
    x, es := DoStep(rule, at, x, es, 2, Good);
    assert x.actors == map[] && es == SessionFaultScript();
  }

  /**
   * A session fault swallows a command: the cancel has set the mode of the call, the call
   * throws without looking at it, the row stays RUNNING and a retry is pending.
   */
  lemma SessionFaultLosesCancel()
    ensures RunsTo(SerialRun, CancelScript(), CancelHeard)
    ensures RunsTo(SerialRun, SessionFaultScript(), RetryPending)
  {
    RunsAreClosed(SerialRun);
    ReachSessionFault(SerialRun, (x, es) => RunsTo(SerialRun, es, x));
  }

  /** The download fails transiently, and the cancel arrives before the hand-back is written. */
  function RetryWindowScript(): seq<Event> {
    BeginScript() + [Step(2, Good), Step(2, Bad(false)), StartCancel(0), Step(3, Good), Step(3, Good), Step(4, Good)]
  }

  const HeardInRetryWindow := Scene(Up, View(RUNNING, Downloading, Some(Exec(Active(2), 1, 0)), Some(2)),
                                    map[2 := Proc(0, 1, 0, Requeue, Some(Cancel), Some(RUNNING))], 5)

  lemma ReachRetryWindow(rule: Rule, at: Reached)
    requires Closed(rule, at)
    ensures at(HeardInRetryWindow, RetryWindowScript())
  {
    ReachBegun(rule, at);
    var x, es := Begun, BeginScript();
    x, es := DoStep(rule, at, x, es, 2, Good);
    x, es := DoStep(rule, at, x, es, 2, Bad(false));
    x, es := DoStart(rule, at, x, es, StartCancel(0));
    x, es := DoStep(rule, at, x, es, 3, Good);
    x, es := DoSend(rule, at, x, es, 3);
    x, es := DoDeliver(rule, at, x, es, 4);
    assert x.actors == HeardInRetryWindow.actors && es == RetryWindowScript();
  }

  function RetryScript(): seq<Event> {
    RetryWindowScript() + [Step(2, Good), Step(2, Good), Step(2, Good), Step(2, Good)]
  }

  const HandedBack := Scene(Up, View(QUEUED, Downloading, Some(Exec(Pending, 1, 1)), None), map[], 5)

  lemma ReachHandedBack(rule: Rule, at: Reached)
    requires Closed(rule, at)
    ensures at(HeardInRetryWindow, RetryWindowScript()) && at(HandedBack, RetryScript())
  {
    ReachRetryWindow(rule, at);
    var x, es := HeardInRetryWindow, RetryWindowScript();
    x, es := DoStep(rule, at, x, es, 2, Good);
    x, es := DoExit(rule, at, x, es, 2);
    assert x.actors == map[] && es == RetryScript();
  }

  /**
   * A command that arrives between a transient failure and the hand-back is lost as well:
   * the mode is set, the row goes back to QUEUED and the retry is pending.
   */
  lemma RetryWindowLosesCancel()
    ensures RunsTo(SerialRun, RetryWindowScript(), HeardInRetryWindow)
    ensures RunsTo(SerialRun, RetryScript(), HandedBack)
  {
    RunsAreClosed(SerialRun);
    ReachHandedBack(SerialRun, (x, es) => RunsTo(SerialRun, es, x));
  }

  /** A retry by call p, whose session throws again. */
  function FaultRound(p: ActorId): seq<Event> {
    TakeOver(p) + [Step(p, Bad(false)), Step(p, Good), Step(p, Good)]
  }

  function TakeOver(p: ActorId): seq<Event> {
    [Activate(0), Step(p, Good), Step(p, Good), Step(p, Good), Step(p, Good)]
  }

  /** n session faults so far: the retry is pending, or there is none left. */
  function Faulted(n: nat): Scene {
    var exec := if n < DOWNLOAD_ATTEMPTS then Some(Exec(Pending, n, n)) else None;
    Scene(Up, View(RUNNING, Downloading, exec, None), map[], n + 2)
  }

  /** The next call has taken the RUNNING row over. */
  function TakenOver(n: nat): Scene {
    Scene(Up, View(RUNNING, Downloading, Some(Exec(Active(n + 2), n + 1, n)), Some(n + 2)),
          map[n + 2 := Proc(0, n + 1, n, Session, None, Some(RUNNING))], n + 3)
  }

  function FaultsScript(n: nat): seq<Event> {
    if n <= 1 then BeginScript() + [Step(2, Bad(false)), Step(2, Good), Step(2, Good)]
    else FaultsScript(n - 1) + FaultRound(n + 1)
  }

  lemma ReachTakenOver(rule: Rule, at: Reached, n: nat, es: seq<Event>)
    requires Closed(rule, at) && 1 <= n < DOWNLOAD_ATTEMPTS && at(Faulted(n), es)
    ensures at(TakenOver(n), es + TakeOver(n + 2))
  {
    var p := n + 2;
    var x, fs := DoActivate(rule, at, Faulted(n), es);
    x, fs := DoStep(rule, at, x, fs, p, Good);
    x, fs := DoStep(rule, at, x, fs, p, Good);
    x, fs := DoStep(rule, at, x, fs, p, Good);
    x, fs := DoStep(rule, at, x, fs, p, Good);
    assert x.actors == TakenOver(n).actors && fs == es + TakeOver(p);
  }

  lemma OneMoreFault(rule: Rule, at: Reached, n: nat, es: seq<Event>)
    requires Closed(rule, at) && 1 <= n < DOWNLOAD_ATTEMPTS && at(TakenOver(n), es)
    ensures at(Faulted(n + 1), es + [Step(n + 2, Bad(false)), Step(n + 2, Good), Step(n + 2, Good)])
  {
    var p := n + 2;
    var x, fs := DoStep(rule, at, TakenOver(n), es, p, Bad(false));
    x, fs := DoStep(rule, at, x, fs, p, Good);
    x, fs := DoStep(rule, at, x, fs, p, Good);
    assert x.actors == map[] && fs == es + [Step(p, Bad(false)), Step(p, Good), Step(p, Good)];
  }

  lemma {:induction false} ReachFaulted(rule: Rule, at: Reached, n: nat)
    requires Closed(rule, at) && 1 <= n <= DOWNLOAD_ATTEMPTS
    ensures at(Faulted(n), FaultsScript(n))
  {
    if n == 1 {
      ReachBegun(rule, at);
      var x, es := Begun, BeginScript();
      x, es := DoStep(rule, at, x, es, 2, Bad(false));
      x, es := DoStep(rule, at, x, es, 2, Good);
      x, es := DoStep(rule, at, x, es, 2, Good);
      assert x.actors == map[] && es == FaultsScript(1);
    } else {
      ReachFaulted(rule, at, n - 1);
      ReachTakenOver(rule, at, n - 1, FaultsScript(n - 1));
      OneMoreFault(rule, at, n - 1, FaultsScript(n - 1) + TakeOver(n + 1));
      assert FaultsScript(n - 1) + TakeOver(n + 1) + [Step(n + 1, Bad(false)), Step(n + 1, Good), Step(n + 1, Good)] ==
        FaultsScript(n);
    }
  }

  /** A session fault, and only then a cancel, which finds the row RUNNING. */
  function DeafScript(): seq<Event> {
    FaultsScript(1) + [StartCancel(0), Step(3, Good), Step(3, Good)]
  }

  /** The worker is up and the row is RUNNING, but the registry has no entry for it. */
  const Deaf := Scene(Up, View(RUNNING, Downloading, Some(Exec(Pending, 1, 1)), None), map[4 := Message(0, Cancel)], 5)

  lemma ReachDeaf(rule: Rule, at: Reached)
    requires Closed(rule, at)
    ensures at(Deaf, DeafScript())
  {
    ReachFaulted(rule, at, 1);
    var x, es := Faulted(1), FaultsScript(1);
    x, es := DoStart(rule, at, x, es, StartCancel(0));
    x, es := DoStep(rule, at, x, es, 3, Good);
    x, es := DoSend(rule, at, x, es, 3);
    assert x.actors == Deaf.actors && es == DeafScript();
  }

  lemma ReachUnheard(rule: Rule, at: Reached)
    requires Closed(rule, at)
    ensures at(Deaf, DeafScript()) && at(RetryPending, DeafScript() + [Step(4, Good)])
  {
    ReachDeaf(rule, at);
    var x, es := DoDeliver(rule, at, Deaf, DeafScript(), 4);
    assert x.actors == map[];
  }

  /**
   * A RUNNING row on a living worker need not have a registry entry: between a session
   * fault and its retry it has none, and a cancel sent then is delivered to nobody.
   */
  lemma RunningRowCanBeDeaf()
    ensures RunsTo(SerialRun, DeafScript(), Deaf)
    ensures RunsTo(SerialRun, DeafScript() + [Step(4, Good)], RetryPending)
  {
    RunsAreClosed(SerialRun);
    ReachUnheard(SerialRun, (x, es) => RunsTo(SerialRun, es, x));
  }

  // ------------------------------------------------------------ a row is lost --

  /** A cancel reads the row QUEUED, and call 2 then claims it. */
  function OvertakenScript(): seq<Event> {
    ClaimScript() + [StartCancel(0), Step(3, Good), Step(2, Good), Step(2, Good)]
  }

  const Overtaken := Scene(Up, View(RUNNING, Downloading, Some(Exec(Active(2), 1, 0)), Some(2)),
                           map[2 := Proc(0, 1, 0, Session, None, Some(RUNNING)), 3 := Canceller(0, CancelRemove)], 4)

  lemma ReachOvertaken(rule: Rule, at: Reached)
    requires Closed(rule, at)
    ensures at(Overtaken, OvertakenScript())
  {
    ReachClaim(rule, at);
    var x, es := BeforeClaim, ClaimScript();
    x, es := DoStart(rule, at, x, es, StartCancel(0));
    x, es := DoStep(rule, at, x, es, 3, Good);
    x, es := DoStep(rule, at, x, es, 2, Good);
    x, es := DoStep(rule, at, x, es, 2, Good);
    assert x.actors == Overtaken.actors && es == OvertakenScript();
  }

  /** Its session throws. */
  function StaleCancelScript(): seq<Event> {
    OvertakenScript() + [Step(2, Bad(false)), Step(2, Good), Step(2, Good)]
  }

  const StaleCancel := Scene(Up, View(RUNNING, Downloading, Some(Exec(Pending, 1, 1)), None),
                             map[3 := Canceller(0, CancelRemove)], 4)

  lemma ReachStaleCancel(rule: Rule, at: Reached)
    requires Closed(rule, at)
    ensures at(StaleCancel, StaleCancelScript())
  {
    ReachOvertaken(rule, at);
    var x, es := Overtaken, OvertakenScript();
    x, es := DoStep(rule, at, x, es, 2, Bad(false));
    x, es := DoStep(rule, at, x, es, 2, Good);
    x, es := DoStep(rule, at, x, es, 2, Good);
    assert x.actors == StaleCancel.actors && es == StaleCancelScript();
  }

  /** The cancel removes the pending retry, misses the row, and signals to nobody. */
  function RemovedRetryScript(): seq<Event> {
    StaleCancelScript() + [Step(3, Good), Step(3, Good), Step(3, Good), Step(3, Good), Step(4, Good)]
  }

  const Forsaken := Scene(Up, View(RUNNING, Downloading, None, None), map[], 5)

  lemma ReachForsaken(rule: Rule, at: Reached)
    requires Closed(rule, at)
    ensures at(StaleCancel, StaleCancelScript()) && at(Forsaken, RemovedRetryScript())
  {
    ReachStaleCancel(rule, at);
    var x, es := StaleCancel, StaleCancelScript();
    x, es := DoStep(rule, at, x, es, 3, Good);
    x, es := DoStep(rule, at, x, es, 3, Good);
    x, es := DoStep(rule, at, x, es, 3, Good);
    x, es := DoSend(rule, at, x, es, 3);
    x, es := DoDeliver(rule, at, x, es, 4);
    assert x.actors == map[] && es == RemovedRetryScript();
  }

  /**
   * A cancel that read the row QUEUED removes the retry of the call that has run meanwhile:
   * the cancel is answered as signalled, and the row is RUNNING with no execution and no
   * actor. No commands overlap.
   */
  lemma StaleRemoveForsakesRow()
    ensures RunsTo(SerialRun, StaleCancelScript(), StaleCancel)
    ensures RunsTo(SerialRun, RemovedRetryScript(), Forsaken) && !Carried(Forsaken.World(), 0)
  {
    RunsAreClosed(SerialRun);
    ReachForsaken(SerialRun, (x, es) => RunsTo(SerialRun, es, x));
  }

  /** A session that fails at every attempt leaves the row RUNNING with no execution and no actor. */
  lemma SessionFaultsForsakeRow()
    ensures RunsTo(SerialRun, FaultsScript(DOWNLOAD_ATTEMPTS), Faulted(DOWNLOAD_ATTEMPTS))
    ensures !Carried(Faulted(DOWNLOAD_ATTEMPTS).World(), 0)
  {
    RunsAreClosed(SerialRun);
    ReachFaulted(SerialRun, (x, es) => RunsTo(SerialRun, es, x), DOWNLOAD_ATTEMPTS);
  }

  /** The download is published, but the verify chain cannot be added: the row is handed back. */
  function ChainFaultScript(): seq<Event> {
    BeginScript() + [Step(2, Good), Step(2, Good), Step(2, Good), Step(2, Bad(false))]
  }

  const ChainFault := Scene(Up, View(RUNNING, Verifying, Some(Exec(Active(2), 1, 0)), Some(2)),
                            map[2 := Proc(0, 1, 0, Requeue, None, Some(RUNNING))], 3)

  lemma ReachChainFault(rule: Rule, at: Reached)
    requires Closed(rule, at)
    ensures at(ChainFault, ChainFaultScript())
  {
    ReachBegun(rule, at);
    var x, es := Begun, BeginScript();
    x, es := DoStep(rule, at, x, es, 2, Good);
    x, es := DoStep(rule, at, x, es, 2, Good);
    x, es := DoStep(rule, at, x, es, 2, Good);
    x, es := DoStep(rule, at, x, es, 2, Bad(false));
    assert x.actors == ChainFault.actors && es == ChainFaultScript();
  }

  /** n attempts have failed to chain: the retry is pending, or there is none left. */
  function Unchained(n: nat): Scene {
    var exec := if n < DOWNLOAD_ATTEMPTS then Some(Exec(Pending, n, n)) else None;
    Scene(Up, View(QUEUED, Verifying, exec, None), map[], n + 2)
  }

  /** A retry by call p finds the video past the download and fails to chain again. */
  function RechainRound(p: ActorId): seq<Event> {
    [Activate(0), Step(p, Good), Step(p, Bad(false)), Step(p, Good)]
  }

  function RechainScript(n: nat): seq<Event> {
    if n <= 1 then ChainFaultScript() + [Step(2, Good), Step(2, Good), Step(2, Good), Step(2, Good)]
    else RechainScript(n - 1) + RechainRound(n + 1)
  }

  lemma OneMoreRechain(rule: Rule, at: Reached, n: nat, es: seq<Event>)
    requires Closed(rule, at) && 1 <= n < DOWNLOAD_ATTEMPTS && at(Unchained(n), es)
    ensures at(Unchained(n + 1), es + RechainRound(n + 2))
  {
    var p := n + 2;
    var x, fs := DoActivate(rule, at, Unchained(n), es);
    x, fs := DoStep(rule, at, x, fs, p, Good);
    x, fs := DoStep(rule, at, x, fs, p, Bad(false));
    x, fs := DoStep(rule, at, x, fs, p, Good);
    assert x.actors == map[] && fs == es + RechainRound(p);
  }

  lemma {:induction false} ReachUnchained(rule: Rule, at: Reached, n: nat)
    requires Closed(rule, at) && 1 <= n <= DOWNLOAD_ATTEMPTS
    ensures at(Unchained(n), RechainScript(n))
  {
    if n == 1 {
      ReachChainFault(rule, at);
      var x, es := ChainFault, ChainFaultScript();
      x, es := DoStep(rule, at, x, es, 2, Good);
      x, es := DoExit(rule, at, x, es, 2);
      assert x.actors == map[] && es == RechainScript(1);
    } else {
      ReachUnchained(rule, at, n - 1);
      OneMoreRechain(rule, at, n - 1, RechainScript(n - 1));
    }
  }

  /** A verify chain that fails at every attempt leaves the row QUEUED with no execution and no actor. */
  lemma RechainFaultsForsakeRow()
    ensures RunsTo(SerialRun, RechainScript(DOWNLOAD_ATTEMPTS), Unchained(DOWNLOAD_ATTEMPTS))
    ensures !Carried(Unchained(DOWNLOAD_ATTEMPTS).World(), 0)
  {
    RunsAreClosed(SerialRun);
    ReachUnchained(SerialRun, (x, es) => RunsTo(SerialRun, es, x), DOWNLOAD_ATTEMPTS);
  }

  /** A cancel reaches call 2 at work. */
  function CancelAtWorkScript(): seq<Event> {
    BeginScript() + [Step(2, Good), StartCancel(0), Step(3, Good), Step(3, Good), Step(4, Good)]
  }

  const CancelAtWork := Scene(Up, View(RUNNING, Downloading, Some(Exec(Active(2), 1, 0)), Some(2)),
                              map[2 := Proc(0, 1, 0, Work, Some(Cancel), Some(RUNNING))], 5)

  lemma ReachCancelAtWork(rule: Rule, at: Reached)
    requires Closed(rule, at)
    ensures at(CancelAtWork, CancelAtWorkScript())
  {
    ReachBegun(rule, at);
    var x, es := Begun, BeginScript();
    x, es := DoStep(rule, at, x, es, 2, Good);
    x, es := DoStart(rule, at, x, es, StartCancel(0));
    x, es := DoStep(rule, at, x, es, 3, Good);
    x, es := DoSend(rule, at, x, es, 3);
    x, es := DoDeliver(rule, at, x, es, 4);
    assert x.actors == CancelAtWork.actors && es == CancelAtWorkScript();
  }

  /** The abort cannot remove the staging directory; the fault is swallowed and the call returns. */
  function WipeFaultScript(): seq<Event> {
    CancelAtWorkScript() + [Step(2, Good), Step(2, Bad(false)), Step(2, Good), Step(2, Good), Step(2, Good)]
  }

  lemma ReachWipeFault(rule: Rule, at: Reached)
    requires Closed(rule, at)
    ensures at(CancelAtWork, CancelAtWorkScript()) && at(Forsaken, WipeFaultScript())
  {
    ReachCancelAtWork(rule, at);
    var x, es := CancelAtWork, CancelAtWorkScript();
    x, es := DoStep(rule, at, x, es, 2, Good);
    x, es := DoStep(rule, at, x, es, 2, Bad(false));
    x, es := DoExit(rule, at, x, es, 2);
    assert x.actors == map[] && es == WipeFaultScript();
  }

  /**
   * A cancel taken at work is lost if the staging directory cannot be removed: the row stays
   * RUNNING with no execution and no actor, and the video DOWNLOADING.
   */
  lemma WipeFaultLosesCancel()
    ensures RunsTo(SerialRun, CancelAtWorkScript(), CancelAtWork)
    ensures RunsTo(SerialRun, WipeFaultScript(), Forsaken) && !Carried(Forsaken.World(), 0)
  {
    RunsAreClosed(SerialRun);
    ReachWipeFault(SerialRun, (x, es) => RunsTo(SerialRun, es, x));
  }

  // ----------------------------------------------------- overlapping resumes --

  /** A fresh row is paused before its execution is picked up. */
  function PausedScript(): seq<Event> {
    Start(Up) + [Step(1, Good), StartPause(0), Step(2, Good), Step(2, Good), Step(2, Good)]
  }

  const PausedEarly := Scene(Up, View(PAUSED, Queued, None, None), map[], 3)

  lemma ReachPaused(rule: Rule, at: Reached)
    requires Closed(rule, at)
    ensures at(PausedEarly, PausedScript())
  {
    var x, es := Enqueued(Up), Start(Up);
    x, es := DoStep(rule, at, x, es, 1, Good);
    x, es := DoStart(rule, at, x, es, StartPause(0));
    x, es := DoStep(rule, at, x, es, 2, Good);
    x, es := DoStep(rule, at, x, es, 2, Good);
    x, es := DoStep(rule, at, x, es, 2, Good);
    assert x.actors == map[] && es == PausedScript();
  }

  /** Resume 3 has checked that no execution exists and stands before its CAS. */
  function FirstResumeScript(): seq<Event> {
    PausedScript() + [StartResume(0), Step(3, Good), Step(3, Good)]
  }

  const FirstResume := Scene(Up, View(PAUSED, Queued, None, None), map[3 := Resumer(0, ResumeCas)], 4)

  lemma ReachFirstResume(rule: Rule, at: Reached)
    requires Closed(rule, at)
    ensures at(FirstResume, FirstResumeScript())
  {
    ReachPaused(rule, at);
    var x, es := PausedEarly, PausedScript();
    x, es := DoStart(rule, at, x, es, StartResume(0));
    x, es := DoStep(rule, at, x, es, 3, Good);
    x, es := DoStep(rule, at, x, es, 3, Good);
    assert x.actors == FirstResume.actors && es == FirstResumeScript();
  }

  /** Resume 4 overtakes it, and its fresh execution is picked up by call 5. */
  function SecondResumeScript(): seq<Event> {
    FirstResumeScript() + [StartResume(0), Step(4, Good), Step(4, Good), Step(4, Good), Step(4, Good), Activate(0)]
  }

  const SecondResume := Scene(Up, View(QUEUED, Queued, Some(Exec(Active(5), 1, 0)), None),
                              map[3 := Resumer(0, ResumeCas), 5 := Proc(0, 1, 0, ReadVideo, None, None)], 6)

  lemma ReachSecondResume(at: Reached)
    requires Closed(OrderlyRun, at)
    ensures at(SecondResume, SecondResumeScript())
  {
    ReachFirstResume(OrderlyRun, at);
    var x, es := FirstResume, FirstResumeScript();
    x, es := DoStart(OrderlyRun, at, x, es, StartResume(0));
    x, es := DoStep(OrderlyRun, at, x, es, 4, Good);
    x, es := DoStep(OrderlyRun, at, x, es, 4, Good);
    x, es := DoStep(OrderlyRun, at, x, es, 4, Good);
    x, es := DoStep(OrderlyRun, at, x, es, 4, Good);
    assert x.actors == map[3 := Resumer(0, ResumeCas)];
    x, es := DoActivate(OrderlyRun, at, x, es);
    assert x == SecondResume && es == SecondResumeScript();
  }

  /** Pause 6 lands before the claim. */
  function SecondPauseScript(): seq<Event> {
    SecondResumeScript() + [StartPause(0), Step(6, Good), Step(6, Good), Step(6, Good)]
  }

  const SecondPause := Scene(Up, View(PAUSED, Queued, Some(Exec(Active(5), 1, 0)), None),
                             map[3 := Resumer(0, ResumeCas), 5 := Proc(0, 1, 0, ReadVideo, None, None)], 7)

  lemma ReachSecondPause(at: Reached)
    requires Closed(OrderlyRun, at)
    ensures at(SecondPause, SecondPauseScript())
  {
    ReachSecondResume(at);
    var x, es := SecondResume, SecondResumeScript();
    x, es := DoStart(OrderlyRun, at, x, es, StartPause(0));
    x, es := DoStep(OrderlyRun, at, x, es, 6, Good);
    x, es := DoStep(OrderlyRun, at, x, es, 6, Good);
    x, es := DoStep(OrderlyRun, at, x, es, 6, Good);
    assert x.actors == SecondPause.actors && es == SecondPauseScript();
  }

  /** Call 5 is refused and leaves; resume 3 makes the row QUEUED and stands before its add. */
  function RefusedScript(): seq<Event> {
    SecondPauseScript() + [Step(5, Good), Step(5, Good), Step(5, Good), Step(3, Good)]
  }

  const Refused := Scene(Up, View(QUEUED, Queued, Some(Exec(Active(5), 1, 0)), Some(5)),
                         map[3 := Resumer(0, ResumeAdd), 5 := Proc(0, 1, 0, Leave(Return), None, None)], 7)

  lemma ReachRefused(at: Reached)
    requires Closed(OrderlyRun, at)
    ensures at(Refused, RefusedScript())
  {
    ReachSecondPause(at);
    var x, es := SecondPause, SecondPauseScript();
    x, es := DoStep(OrderlyRun, at, x, es, 5, Good);
    x, es := DoStep(OrderlyRun, at, x, es, 5, Good);
    x, es := DoStep(OrderlyRun, at, x, es, 5, Good);
    x, es := DoStep(OrderlyRun, at, x, es, 3, Good);
    assert x.actors == Refused.actors && es == RefusedScript();
  }

  /** The add is swallowed by the execution of the leaving call. */
  function SwallowedScript(): seq<Event> {
    RefusedScript() + [Step(3, Good), Step(5, Good), Step(5, Good)]
  }

  const Swallowed := Scene(Up, View(QUEUED, Queued, None, None), map[], 7)

  lemma ReachSwallowed(at: Reached)
    requires Closed(OrderlyRun, at)
    ensures at(Refused, RefusedScript()) && at(Swallowed, SwallowedScript())
  {
    ReachRefused(at);
    var x, es := Refused, RefusedScript();
    x, es := DoStep(OrderlyRun, at, x, es, 3, Good);
    x, es := DoStep(OrderlyRun, at, x, es, 5, Good);
    x, es := DoStep(OrderlyRun, at, x, es, 5, Good);
    assert x.actors == map[] && es == SwallowedScript();
  }

  /**
   * Two overlapping resumes with a pause between them: resume 3 adds while the execution
   * that resume 4 added is still held by the leaving call 5. The row it reports resumed is
   * QUEUED with no execution and nobody left to add one.
   */
  lemma OverlappingResumesStrandRow()
    ensures RunsTo(OrderlyRun, RefusedScript(), Refused)
    ensures RunsTo(OrderlyRun, SwallowedScript(), Swallowed) && !Carried(Swallowed.World(), 0)
  {
    RunsAreClosed(OrderlyRun);
    ReachSwallowed((x, es) => RunsTo(OrderlyRun, es, x));
  }

  // --------------------------------------------- a stall declared on a live call --

  /** Call 2 has claimed; its execution is failed as stalled; verdict 3 reads the video QUEUED. */
  function LiveVerdictScript(): seq<Event> {
    ClaimScript() + [Step(2, Good), Stall(0), FireVerdict(0), Step(3, Good), Step(3, Good), Step(3, Good)]
  }

  const LiveVerdict := Scene(Up, View(FAILED, Queued, None, Some(2)),
                             map[2 := Proc(0, 1, 0, Begin(Queued), None, Some(RUNNING)),
                                 3 := Verdict(0, VerdictOwners)], 4)

  lemma ReachLiveVerdict(at: Reached)
    requires Closed(LiveStalls, at)
    ensures at(LiveVerdict, LiveVerdictScript())
  {
    ReachClaim(LiveStalls, at);
    var x, es := BeforeClaim, ClaimScript();
    x, es := DoStep(LiveStalls, at, x, es, 2, Good);
    x, es := DoStall(LiveStalls, at, x, es);
    x, es := DoStep(LiveStalls, at, x, es, 3, Good);
    x, es := DoStep(LiveStalls, at, x, es, 3, Good);
    x, es := DoStep(LiveStalls, at, x, es, 3, Good);
    assert x.actors == LiveVerdict.actors && es == LiveVerdictScript();
  }

  /** The call begins the video of its settled row, and the verdict's hop misses. */
  function LiveMissScript(): seq<Event> {
    LiveVerdictScript() + [Step(2, Good), Step(3, Good), Step(3, Good)]
  }

  const LiveMiss := Scene(Up, View(FAILED, Downloading, None, Some(2)),
                          map[2 := Proc(0, 1, 0, Session, None, Some(RUNNING))], 4)

  lemma ReachLiveMiss(at: Reached)
    requires Closed(LiveStalls, at)
    ensures at(LiveVerdict, LiveVerdictScript()) && at(LiveMiss, LiveMissScript())
  {
    ReachLiveVerdict(at);
    var x, es := LiveVerdict, LiveVerdictScript();
    x, es := DoStep(LiveStalls, at, x, es, 2, Good);
    x, es := DoStep(LiveStalls, at, x, es, 3, Good);
    x, es := DoStep(LiveStalls, at, x, es, 3, Good);
    assert x.actors == LiveMiss.actors && es == LiveMissScript();
  }

  function LiveStallScript(): seq<Event> {
    LiveMissScript() + [Step(2, Bad(false)), Step(2, Good), Step(2, Good)]
  }

  const Orphaned := Scene(Up, View(FAILED, Downloading, None, None), map[], 4)

  lemma ReachOrphaned(at: Reached)
    requires Closed(LiveStalls, at)
    ensures at(LiveVerdict, LiveVerdictScript()) && at(Orphaned, LiveStallScript())
  {
    ReachLiveMiss(at);
    var x, es := LiveMiss, LiveMissScript();
    x, es := DoStep(LiveStalls, at, x, es, 2, Bad(false));
    x, es := DoStep(LiveStalls, at, x, es, 2, Good);
    x, es := DoStep(LiveStalls, at, x, es, 2, Good);
    assert x.actors == map[] && es == LiveStallScript();
  }

  /** In a world of one row without a crash, nobody answers for a video under a settled row but a debtor. */
  lemma StepStrands(x: Scene, a: ActorId, c: Choice)
    requires a in x.actors && RowActor(x.actors[a]) && x.actors[a].row == 0
    requires BeginsSettled(x.actors[a], x.view) || CompensatesLate(x.actors[a], x.view)
    requires forall b | b in x.actors :: b != a && RowActor(x.actors[b]) ==> !OwesHop(x.actors[b], Downloading)
    ensures Enabled(x.World(), Step(a, c)) && Strands(x.World(), Step(a, c), 0)
  {
    LookWorld(x);
  }

  lemma NobodyOwns(x: Scene)
    requires InFlight(x.view.copy) && !IsActive(x.view.status)
    requires forall b | b in x.actors :: RowActor(x.actors[b]) ==> !OwesHop(x.actors[b], x.view.copy)
    ensures !Owned(x.World(), 0)
  {}

  lemma LiveStallStrandsVideoRuns()
    ensures RunsTo(LiveStalls, LiveVerdictScript(), LiveVerdict) && RunsTo(LiveStalls, LiveStallScript(), Orphaned)
  {
    RunsAreClosed(LiveStalls);
    ReachOrphaned((x, es) => RunsTo(LiveStalls, es, x));
  }

  lemma LiveVerdictStrands()
    ensures Enabled(LiveVerdict.World(), Step(2, Good)) && Strands(LiveVerdict.World(), Step(2, Good), 0)
  {
    StepStrands(LiveVerdict, 2, Good);
  }

  lemma OrphanedIsUnowned()
    ensures !Owned(Orphaned.World(), 0)
  {
    NobodyOwns(Orphaned);
  }

  /**
   * If a stall is declared on a call between its claim and its first hop, the call's next
   * step strands the video: it stays DOWNLOADING under a FAILED row for good.
   */
  lemma LiveStallStrandsVideo()
    ensures RunsTo(LiveStalls, LiveVerdictScript(), LiveVerdict)
    ensures Enabled(LiveVerdict.World(), Step(2, Good)) && Strands(LiveVerdict.World(), Step(2, Good), 0)
    ensures RunsTo(LiveStalls, LiveStallScript(), Orphaned) && !Owned(Orphaned.World(), 0)
  {
    LiveStallStrandsVideoRuns();
    LiveVerdictStrands();
    OrphanedIsUnowned();
  }

  /** A pause settles the row while call 2 has its claim ahead; then the stall is declared. */
  function ZombieScript(): seq<Event> {
    ClaimScript() + [StartPause(0), Step(3, Good), Step(3, Good), Step(3, Good), Stall(0), FireVerdict(0),
                       Step(4, Good)]
  }

  const Zombie := Scene(Up, View(PAUSED, Queued, None, Some(2)), map[2 := Proc(0, 1, 0, Claim(Queued), None, None)], 5)

  lemma ReachZombie(at: Reached)
    requires Closed(LiveStalls, at)
    ensures at(Zombie, ZombieScript())
  {
    ReachClaim(LiveStalls, at);
    var x, es := BeforeClaim, ClaimScript();
    x, es := DoStart(LiveStalls, at, x, es, StartPause(0));
    x, es := DoStep(LiveStalls, at, x, es, 3, Good);
    x, es := DoStep(LiveStalls, at, x, es, 3, Good);
    x, es := DoStep(LiveStalls, at, x, es, 3, Good);
    x, es := DoStall(LiveStalls, at, x, es);
    x, es := DoStep(LiveStalls, at, x, es, 4, Good);
    assert x.actors == Zombie.actors && es == ZombieScript();
  }

  /** A resume adds a fresh execution. */
  function RevivedScript(): seq<Event> {
    ZombieScript() + [StartResume(0), Step(5, Good), Step(5, Good), Step(5, Good), Step(5, Good)]
  }

  const Revived := Scene(Up, View(QUEUED, Queued, Some(Exec(Pending, 0, 0)), Some(2)),
                         map[2 := Proc(0, 1, 0, Claim(Queued), None, None)], 6)

  lemma ReachRevived(at: Reached)
    requires Closed(LiveStalls, at)
    ensures at(Revived, RevivedScript())
  {
    ReachZombie(at);
    var x, es := Zombie, ZombieScript();
    x, es := DoStart(LiveStalls, at, x, es, StartResume(0));
    x, es := DoStep(LiveStalls, at, x, es, 5, Good);
    x, es := DoStep(LiveStalls, at, x, es, 5, Good);
    x, es := DoStep(LiveStalls, at, x, es, 5, Good);
    x, es := DoStep(LiveStalls, at, x, es, 5, Good);
    assert x.actors == Revived.actors && es == RevivedScript();
  }

  /** Call 6 picks it up and claims the row. */
  function FreshClaimScript(): seq<Event> {
    RevivedScript() + [Activate(0), Step(6, Good), Step(6, Good), Step(6, Good)]
  }

  const FreshClaim := Scene(Up, View(RUNNING, Queued, Some(Exec(Active(6), 1, 0)), Some(6)),
                            map[2 := Proc(0, 1, 0, Claim(Queued), None, None),
                                6 := Proc(0, 1, 0, Begin(Queued), None, Some(RUNNING))], 7)

  lemma ReachFreshClaim(at: Reached)
    requires Closed(LiveStalls, at)
    ensures at(FreshClaim, FreshClaimScript())
  {
    ReachRevived(at);
    var x, es := Revived, RevivedScript();
    x, es := DoActivate(LiveStalls, at, x, es);
    x, es := DoStep(LiveStalls, at, x, es, 6, Good);
    x, es := DoStep(LiveStalls, at, x, es, 6, Good);
    x, es := DoStep(LiveStalls, at, x, es, 6, Good);
    assert x.actors == FreshClaim.actors && es == FreshClaimScript();
  }

  /** It works and fails transiently. */
  function FreshFailureScript(): seq<Event> {
    FreshClaimScript() + [Step(6, Good), Step(6, Good), Step(6, Bad(false))]
  }

  const FreshFailure := Scene(Up, View(RUNNING, Downloading, Some(Exec(Active(6), 1, 0)), Some(6)),
                              map[2 := Proc(0, 1, 0, Claim(Queued), None, None),
                                  6 := Proc(0, 1, 0, Requeue, None, Some(RUNNING))], 7)

  lemma ReachFreshFailure(at: Reached)
    requires Closed(LiveStalls, at)
    ensures at(FreshFailure, FreshFailureScript())
  {
    ReachFreshClaim(at);
    var x, es := FreshClaim, FreshClaimScript();
    x, es := DoStep(LiveStalls, at, x, es, 6, Good);
    x, es := DoStep(LiveStalls, at, x, es, 6, Good);
    x, es := DoStep(LiveStalls, at, x, es, 6, Bad(false));
    assert x.actors == FreshFailure.actors && es == FreshFailureScript();
  }

  /** It hands the row back and its retry is pending; then the old call claims the row. */
  function ZombieClaimScript(): seq<Event> {
    FreshFailureScript() + [Step(6, Good), Step(6, Good), Step(6, Good), Step(6, Good), Step(2, Good)]
  }

  const ZombieClaim := Scene(Up, View(RUNNING, Downloading, Some(Exec(Pending, 1, 1)), None),
                             map[2 := Proc(0, 1, 0, Begin(Queued), None, Some(RUNNING))], 7)

  lemma ReachZombieClaim(at: Reached)
    requires Closed(LiveStalls, at)
    ensures at(ZombieClaim, ZombieClaimScript())
  {
    ReachFreshFailure(at);
    var x, es := FreshFailure, FreshFailureScript();
    x, es := DoStep(LiveStalls, at, x, es, 6, Good);
    x, es := DoExit(LiveStalls, at, x, es, 6);
    assert x.actors == map[2 := Proc(0, 1, 0, Claim(Queued), None, None)];
    x, es := DoStep(LiveStalls, at, x, es, 2, Good);
    assert x.actors == ZombieClaim.actors && es == ZombieClaimScript();
  }

  /** The retry takes the RUNNING row over. */
  function TwoCallsScript(): seq<Event> {
    ZombieClaimScript() + [Activate(0), Step(7, Good), Step(7, Good), Step(7, Good)]
  }

  const TwoCalls := Scene(Up, View(RUNNING, Downloading, Some(Exec(Active(7), 2, 1)), Some(7)),
                          map[2 := Proc(0, 1, 0, Begin(Queued), None, Some(RUNNING)),
                              7 := Proc(0, 2, 1, Begin(Downloading), None, Some(RUNNING))], 8)

  lemma ReachTwoCalls(at: Reached)
    requires Closed(LiveStalls, at)
    ensures at(TwoCalls, TwoCallsScript())
  {
    ReachZombieClaim(at);
    var x, es := ZombieClaim, ZombieClaimScript();
    x, es := DoActivate(LiveStalls, at, x, es);
    x, es := DoStep(LiveStalls, at, x, es, 7, Good);
    x, es := DoStep(LiveStalls, at, x, es, 7, Good);
    x, es := DoStep(LiveStalls, at, x, es, 7, Good);
    assert x.actors == TwoCalls.actors && es == TwoCallsScript();
  }

  lemma TwoCallsRuns()
    ensures RunsTo(LiveStalls, RevivedScript(), Revived) && RunsTo(LiveStalls, TwoCallsScript(), TwoCalls)
  {
    RunsAreClosed(LiveStalls);
    ReachRevived((x, es) => RunsTo(LiveStalls, es, x));
    ReachTwoCalls((x, es) => RunsTo(LiveStalls, es, x));
  }

  lemma RevivedIsHaunted()
    ensures Enabled(Revived.World(), Activate(0)) && Haunted(Revived.World(), Activate(0), {2})
  {
    assert CallOn(Revived.World(), 2, 0);
  }

  /**
   * If a live call's execution is failed as stalled, the next execution is picked up while
   * the call is still on the row, and the attempts guard no longer excludes: a first
   * activation claims the re-queued row, and the retry of the other execution then
   * re-claims it RUNNING. Two calls work on one row.
   */
  lemma LiveStallBreaksExclusion()
    ensures RunsTo(LiveStalls, RevivedScript(), Revived)
    ensures Enabled(Revived.World(), Activate(0)) && Haunted(Revived.World(), Activate(0), {2})
    ensures RunsTo(LiveStalls, TwoCallsScript(), TwoCalls)
    ensures Working(TwoCalls.actors[2].pc) && Working(TwoCalls.actors[7].pc)
  {
    TwoCallsRuns();
    RevivedIsHaunted();
  }

  // --------------------------------------------- a stall verdict that comes late --

  /** A crash in mid-activation; the boot sweep takes the dead execution for a live one. */
  function CrashedScript(): seq<Event> {
    Start(Up) + [Step(1, Good), Activate(0), CrashWorker, Boot, HealRow(0), Step(3, Good), Ready]
  }

  const Crashed := Scene(Up, View(QUEUED, Queued, Some(Exec(Active(2), 1, 0)), None), map[], 4)

  lemma ReachCrashed(at: Reached)
    requires Closed(LateVerdict, at)
    ensures at(Crashed, CrashedScript())
  {
    var x, es := Enqueued(Up), Start(Up);
    x, es := DoStep(LateVerdict, at, x, es, 1, Good);
    x, es := DoActivate(LateVerdict, at, x, es);
    x, es := DoCrash(LateVerdict, at, x, es);
    x, es := DoPhase(LateVerdict, at, x, es, Boot);
    x, es := DoStart(LateVerdict, at, x, es, HealRow(0));
    x, es := DoStep(LateVerdict, at, x, es, 3, Good);
    x, es := DoPhase(LateVerdict, at, x, es, Ready);
    assert x.actors == map[] && es == CrashedScript();
  }

  /** The stall is declared, and verdict 4 reads the row QUEUED. */
  function VerdictReadScript(): seq<Event> {
    CrashedScript() + [Stall(0), FireVerdict(0), Step(4, Good)]
  }

  const VerdictReads := Scene(Up, View(QUEUED, Queued, None, None), map[4 := Verdict(0, VerdictFail)], 5)

  lemma ReachVerdictReads(at: Reached)
    requires Closed(LateVerdict, at)
    ensures at(VerdictReads, VerdictReadScript())
  {
    ReachCrashed(at);
    var x, es := Crashed, CrashedScript();
    x, es := DoStall(LateVerdict, at, x, es);
    x, es := DoStep(LateVerdict, at, x, es, 4, Good);
    assert x.actors == VerdictReads.actors && es == VerdictReadScript();
  }

  /** The owner pauses. */
  function PausedMeanwhileScript(): seq<Event> {
    VerdictReadScript() + [StartPause(0), Step(5, Good), Step(5, Good), Step(5, Good)]
  }

  const PausedMeanwhile := Scene(Up, View(PAUSED, Queued, None, None), map[4 := Verdict(0, VerdictFail)], 6)

  lemma ReachPausedMeanwhile(at: Reached)
    requires Closed(LateVerdict, at)
    ensures at(PausedMeanwhile, PausedMeanwhileScript())
  {
    ReachVerdictReads(at);
    var x, es := VerdictReads, VerdictReadScript();
    x, es := DoStart(LateVerdict, at, x, es, StartPause(0));
    x, es := DoStep(LateVerdict, at, x, es, 5, Good);
    x, es := DoStep(LateVerdict, at, x, es, 5, Good);
    x, es := DoStep(LateVerdict, at, x, es, 5, Good);
    assert x.actors == PausedMeanwhile.actors && es == PausedMeanwhileScript();
  }

  /** The owner resumes: the row is QUEUED again with a fresh execution. */
  function ResumedMeanwhileScript(): seq<Event> {
    PausedMeanwhileScript() + [StartResume(0), Step(6, Good), Step(6, Good), Step(6, Good), Step(6, Good)]
  }

  const ResumedMeanwhile := Scene(Up, View(QUEUED, Queued, Some(Exec(Pending, 0, 0)), None),
                                  map[4 := Verdict(0, VerdictFail)], 7)

  lemma ReachResumedMeanwhile(at: Reached)
    requires Closed(LateVerdict, at)
    ensures at(ResumedMeanwhile, ResumedMeanwhileScript())
  {
    ReachPausedMeanwhile(at);
    var x, es := PausedMeanwhile, PausedMeanwhileScript();
    x, es := DoStart(LateVerdict, at, x, es, StartResume(0));
    x, es := DoStep(LateVerdict, at, x, es, 6, Good);
    x, es := DoStep(LateVerdict, at, x, es, 6, Good);
    x, es := DoStep(LateVerdict, at, x, es, 6, Good);
    x, es := DoStep(LateVerdict, at, x, es, 6, Good);
    assert x.actors == ResumedMeanwhile.actors && es == ResumedMeanwhileScript();
  }

  /** Call 7 claims the row; the verdict fails it and reads the video QUEUED. */
  function LateVerdictScript(): seq<Event> {
    ResumedMeanwhileScript() + [Activate(0), Step(7, Good), Step(7, Good), Step(7, Good), Step(4, Good), Step(4, Good)]
  }

  const FailedLate := Scene(Up, View(FAILED, Queued, Some(Exec(Active(7), 1, 0)), Some(7)),
                            map[4 := Verdict(0, VerdictOwners),
                                7 := Proc(0, 1, 0, Begin(Queued), None, Some(RUNNING))], 8)

  lemma ReachFailedLate(at: Reached)
    requires Closed(LateVerdict, at)
    ensures at(FailedLate, LateVerdictScript())
  {
    ReachResumedMeanwhile(at);
    var x, es := ResumedMeanwhile, ResumedMeanwhileScript();
    x, es := DoActivate(LateVerdict, at, x, es);
    x, es := DoStep(LateVerdict, at, x, es, 7, Good);
    x, es := DoStep(LateVerdict, at, x, es, 7, Good);
    x, es := DoStep(LateVerdict, at, x, es, 7, Good);
    x, es := DoStep(LateVerdict, at, x, es, 4, Good);
    x, es := DoStep(LateVerdict, at, x, es, 4, Good);
    assert x.actors == FailedLate.actors && es == LateVerdictScript();
  }

  /** The call begins the video and the verdict's hop misses. */
  function MissedHopScript(): seq<Event> {
    LateVerdictScript() + [Step(7, Good), Step(4, Good), Step(4, Good)]
  }

  const MissedHop := Scene(Up, View(FAILED, Downloading, Some(Exec(Active(7), 1, 0)), Some(7)),
                           map[7 := Proc(0, 1, 0, Session, None, Some(RUNNING))], 8)

  lemma ReachMissedHop(at: Reached)
    requires Closed(LateVerdict, at)
    ensures at(FailedLate, LateVerdictScript()) && at(MissedHop, MissedHopScript())
  {
    ReachFailedLate(at);
    var x, es := FailedLate, LateVerdictScript();
    x, es := DoStep(LateVerdict, at, x, es, 7, Good);
    x, es := DoStep(LateVerdict, at, x, es, 4, Good);
    x, es := DoStep(LateVerdict, at, x, es, 4, Good);
    assert x.actors == MissedHop.actors && es == MissedHopScript();
  }

  /** The download fails transiently. */
  function LateFailureScript(): seq<Event> {
    MissedHopScript() + [Step(7, Good), Step(7, Bad(false)), Step(7, Good)]
  }

  const LateFailure := Scene(Up, View(FAILED, Downloading, Some(Exec(Active(7), 1, 0)), Some(7)),
                             map[7 := Proc(0, 1, 0, Cleanup(Throw), None, Some(FAILED))], 8)

  lemma ReachLateFailure(at: Reached)
    requires Closed(LateVerdict, at)
    ensures at(FailedLate, LateVerdictScript()) && at(LateFailure, LateFailureScript())
  {
    ReachMissedHop(at);
    var x, es := MissedHop, MissedHopScript();
    x, es := DoStep(LateVerdict, at, x, es, 7, Good);
    x, es := DoStep(LateVerdict, at, x, es, 7, Bad(false));
    x, es := DoStep(LateVerdict, at, x, es, 7, Good);
    assert x.actors == LateFailure.actors && es == LateFailureScript();
  }

  function LateVerdictEndScript(): seq<Event> {
    LateFailureScript() + [Step(7, Good), Step(7, Good), Step(7, Good)]
  }

  const OrphanedLate := Scene(Up, View(FAILED, Downloading, Some(Exec(Pending, 1, 1)), None), map[], 8)

  lemma ReachOrphanedLate(at: Reached)
    requires Closed(LateVerdict, at)
    ensures at(FailedLate, LateVerdictScript()) && at(OrphanedLate, LateVerdictEndScript())
  {
    ReachLateFailure(at);
    var x, es := DoExit(LateVerdict, at, LateFailure, LateFailureScript(), 7);
    assert x.actors == map[] && es == LateVerdictEndScript();
  }

  lemma LateVerdictStrandsVideoRuns()
    ensures RunsTo(LateVerdict, LateVerdictScript(), FailedLate) &&
        RunsTo(LateVerdict, LateVerdictEndScript(), OrphanedLate)
  {
    RunsAreClosed(LateVerdict);
    ReachOrphanedLate((x, es) => RunsTo(LateVerdict, es, x));
  }

  lemma FailedLateStrands()
    ensures Enabled(FailedLate.World(), Step(7, Good)) && Strands(FailedLate.World(), Step(7, Good), 0)
  {
    StepStrands(FailedLate, 7, Good);
  }

  lemma OrphanedLateIsUnowned()
    ensures !Owned(OrphanedLate.World(), 0)
  {
    NobodyOwns(OrphanedLate);
  }

  /**
   * If an owner pauses and resumes a row while its stall verdict is between its read and
   * its write, the verdict fails the row under a call that has claimed it, and that call's
   * next step strands the video.
   */
  lemma LateVerdictStrandsVideo()
    ensures RunsTo(LateVerdict, LateVerdictScript(), FailedLate)
    ensures Enabled(FailedLate.World(), Step(7, Good)) && Strands(FailedLate.World(), Step(7, Good), 0)
    ensures RunsTo(LateVerdict, LateVerdictEndScript(), OrphanedLate) && !Owned(OrphanedLate.World(), 0)
  {
    LateVerdictStrandsVideoRuns();
    FailedLateStrands();
    OrphanedLateIsUnowned();
  }

  // ------------------------------------------------ a boot inside an enqueue --

  /** The boot sweep re-adds a row whose enqueue has not added it yet; call 3 claims it. */
  function HealedEarlyScript(): seq<Event> {
    Start(Booting) + [HealRow(0), Step(2, Good), Step(2, Good), Ready, Activate(0), Step(3, Good), Step(3, Good)]
  }

  const HealedEarly := Scene(Up, View(QUEUED, Queued, Some(Exec(Active(3), 1, 0)), Some(3)),
                             map[1 := Enqueuer(0, EnqueueAdd), 3 := Proc(0, 1, 0, Claim(Queued), None, None)], 4)

  lemma ReachHealedEarly(at: Reached)
    requires Closed(OrderlyRun, at)
    ensures at(HealedEarly, HealedEarlyScript())
  {
    var x, es := Enqueued(Booting), Start(Booting);
    x, es := DoStart(OrderlyRun, at, x, es, HealRow(0));
    x, es := DoStep(OrderlyRun, at, x, es, 2, Good);
    x, es := DoStep(OrderlyRun, at, x, es, 2, Good);
    assert x.actors == map[1 := Enqueuer(0, EnqueueAdd)];
    x, es := DoPhase(OrderlyRun, at, x, es, Ready);
    x, es := DoActivate(OrderlyRun, at, x, es);
    x, es := DoStep(OrderlyRun, at, x, es, 3, Good);
    x, es := DoStep(OrderlyRun, at, x, es, 3, Good);
    assert x.actors == HealedEarly.actors && es == HealedEarlyScript();
  }

  /** It begins the video and fails transiently. */
  function EarlyFailureScript(): seq<Event> {
    HealedEarlyScript() + [Step(3, Good), Step(3, Good), Step(3, Good), Step(3, Bad(false))]
  }

  const EarlyFailure := Scene(Up, View(RUNNING, Downloading, Some(Exec(Active(3), 1, 0)), Some(3)),
                              map[1 := Enqueuer(0, EnqueueAdd), 3 := Proc(0, 1, 0, Requeue, None, Some(RUNNING))], 4)

  lemma ReachEarlyFailure(at: Reached)
    requires Closed(OrderlyRun, at)
    ensures at(EarlyFailure, EarlyFailureScript())
  {
    ReachHealedEarly(at);
    var x, es := HealedEarly, HealedEarlyScript();
    x, es := DoStep(OrderlyRun, at, x, es, 3, Good);
    x, es := DoStep(OrderlyRun, at, x, es, 3, Good);
    x, es := DoStep(OrderlyRun, at, x, es, 3, Good);
    x, es := DoStep(OrderlyRun, at, x, es, 3, Bad(false));
    assert x.actors == EarlyFailure.actors && es == EarlyFailureScript();
  }

  /** It hands the row back, and the enqueue's add is rejected. */
  function RejectedScript(): seq<Event> {
    EarlyFailureScript() + [Step(3, Good), Step(1, Bad(false))]
  }

  const Rejected := Scene(Up, View(QUEUED, Downloading, Some(Exec(Active(3), 1, 0)), Some(3)),
                          map[1 := Enqueuer(0, CompensateRow),
                              3 := Proc(0, 1, 0, Cleanup(Throw), None, Some(QUEUED))], 4)

  lemma ReachRejected(at: Reached)
    requires Closed(OrderlyRun, at)
    ensures at(Rejected, RejectedScript())
  {
    ReachEarlyFailure(at);
    var x, es := EarlyFailure, EarlyFailureScript();
    x, es := DoStep(OrderlyRun, at, x, es, 3, Good);
    x, es := DoStep(OrderlyRun, at, x, es, 1, Bad(false));
    assert x.actors == Rejected.actors && es == RejectedScript();
  }

  /** The compensation fails the row, its hop of the video misses, and the call leaves. */
  function CompensatedScript(): seq<Event> {
    RejectedScript() + [Step(1, Good), Step(1, Good), Step(3, Good), Step(3, Good), Step(3, Good)]
  }

  const Compensated := Scene(Up, View(FAILED, Downloading, Some(Exec(Pending, 1, 1)), None), map[], 4)

  lemma ReachCompensated(at: Reached)
    requires Closed(OrderlyRun, at)
    ensures at(Rejected, RejectedScript()) && at(Compensated, CompensatedScript())
  {
    ReachRejected(at);
    var x, es := Rejected, RejectedScript();
    x, es := DoStep(OrderlyRun, at, x, es, 1, Good);
    x, es := DoStep(OrderlyRun, at, x, es, 1, Good);
    x, es := DoExit(OrderlyRun, at, x, es, 3);
    assert x.actors == map[] && es == CompensatedScript();
  }

  lemma SlowEnqueueStrandsVideoRuns()
    ensures RunsTo(OrderlyRun, RejectedScript(), Rejected) && RunsTo(OrderlyRun, CompensatedScript(), Compensated)
  {
    RunsAreClosed(OrderlyRun);
    ReachCompensated((x, es) => RunsTo(OrderlyRun, es, x));
  }

  lemma RejectedStrands()
    ensures Enabled(Rejected.World(), Step(1, Good)) && Strands(Rejected.World(), Step(1, Good), 0)
  {
    StepStrands(Rejected, 1, Good);
  }

  lemma CompensatedIsUnowned()
    ensures !Owned(Compensated.World(), 0)
  {
    NobodyOwns(Compensated);
  }

  /**
   * If the boot sweep reaches a row inside its enqueue's commit-to-add window, the rejected
   * add's compensation fails a row that has already run: its next step strands the video.
   */
  lemma SlowEnqueueStrandsVideo()
    ensures RunsTo(OrderlyRun, RejectedScript(), Rejected)
    ensures Enabled(Rejected.World(), Step(1, Good)) && Strands(Rejected.World(), Step(1, Good), 0)
    ensures RunsTo(OrderlyRun, CompensatedScript(), Compensated) && !Owned(Compensated.World(), 0)
  {
    SlowEnqueueStrandsVideoRuns();
    RejectedStrands();
    CompensatedIsUnowned();
  }
}
