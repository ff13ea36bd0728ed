/**
 * The DOWNLOAD queue as a transition system. Each event is one guarded update, one
 * transaction or one BullMQ call, so every interleaving of the api process, the archive
 * worker and BullMQ is a sequence of events. An actor is a piece of code between two of
 * its awaits: its program counter says which read or write it does next, and it carries
 * what it read earlier, however stale. Rows and executions share an id (the custom jobId).
 */
module DownloadProtocol {
  import opened Domain
  import opened VideoStatus
  import opened JobStatusCas

  type RowId = nat
  type VideoId = nat
  type ActorId = nat

  datatype Row = Row(video: VideoId, status: JobStatus)

  /** Pending = waiting or delayed; Doomed = stalled, back in wait with its failure deferred. */
  datatype Life = Pending | Active(owner: ActorId) | Doomed

  /** A BullMQ job: started is attemptsStarted, failures is attemptsMade. */
  datatype Exec = Exec(life: Life, started: nat, failures: nat)

  /** How a processor call ends for BullMQ. */
  datatype Exit = Return | Unrecoverable | Throw

  datatype ProcPc =
    | ReadVideo                    // process(): read the video
    | Rechain                      // idempotent resume: row COMPLETED without a claim
    | Register(seen: CopyState)    // enter the control registry
    | Claim(seen: CopyState)       // claimForAttempt
    | Begin(seen: CopyState)       // QUEUED -> DOWNLOADING hop
    | Recheck                      // the hop was lost: read the video again
    | Refuse                       // row FAILED, video untouched
    | Session                      // obtain the owner session
    | Work                         // the yt-dlp legs, up to the last abort check
    | Publish                      // past the last abort check: metadata + VERIFYING
    | Chain                        // insert the VERIFY follow-up
    | Finish                       // row COMPLETED
    | Abort(mode: Mode)            // first row write of handleAbort
    | ReturnVideo                  // cancel: DOWNLOADING -> CANDIDATE
    | FailVideo(terminal: bool)    // final failure: DOWNLOADING -> FAILED
    | FailRow(terminal: bool)      // final failure: row FAILED
    | Requeue                      // transient failure: row back to QUEUED
    | Cleanup(exit: Exit)          // inner finally: remove the session's cookie file
    | Leave(exit: Exit)            // outer finally: leave the registry
    | Settle(exit: Exit)           // BullMQ moves or removes the execution

  datatype EnqueuePc = EnqueueAdd | CompensateRow | CompensateVideo
  datatype CancelPc =
    | CancelRead | CancelRemove | CancelCas | CancelRecheck | CancelSignal
    | CancelVideo | CancelHop(from: CopyState)
  datatype PausePc = PauseRead | PauseRemove | PauseCas | PauseRecheck | PauseSignal
  datatype ResumePc = ResumeRead | ResumeWait | ResumeCas | ResumeAdd | ResumeRestore
  datatype VerdictPc =
    | VerdictRead | VerdictFail | VerdictVideo | VerdictFailHop | VerdictOwners | VerdictCandidateHop
  datatype HealPc = HealCheck | HealCas | HealAdd

  datatype Actor =
    | Proc(row: RowId, started: nat, failures: nat, pc: ProcPc,
           mode: Option<Mode>,            // the control entry: abort fired with this mode
           outcome: Option<JobStatus>)    // history: the status this call wrote to its row last
    | Enqueuer(row: RowId, epc: EnqueuePc)
    | Canceller(row: RowId, cpc: CancelPc)
    | Pauser(row: RowId, ppc: PausePc)
    | Resumer(row: RowId, rpc: ResumePc)
    | Verdict(row: RowId, vpc: VerdictPc)                    // the worker 'failed' listener
    | RowHealer(row: RowId, seen: JobStatus, hpc: HealPc)    // boot reconciler, one row
    | VideoHealer(video: VideoId, from: CopyState, canceled: bool)   // boot reconciler, one video
    | Message(row: RowId, signal: Mode)                      // a command on job:control

  datatype Phase = Down | Booting | Up

  datatype State = State(
    phase: Phase,                        // of the one archive worker
    rows: map<RowId, Row>,
    videos: map<VideoId, CopyState>,
    execs: map<RowId, Exec>,
    actors: map<ActorId, Actor>,
    registry: map<RowId, ActorId>,
    abandoned: set<VideoId>,             // history: a crash killed the actor that owed the hop
    clock: nat)                          // ids are handed out in increasing order

  /** What the world decides inside one step. */
  datatype Choice = Good | Bad(terminal: bool)

  datatype Event =
    | EnqueueVideo(video: VideoId)
    | StartCancel(row: RowId)
    | StartPause(row: RowId)
    | StartResume(row: RowId)
    | Activate(row: RowId)
    | Drain(actor: ActorId)
    | Stall(row: RowId)
    | FireVerdict(row: RowId)
    | Boot
    | Ready
    | HealRow(row: RowId)
    | HealVideo(video: VideoId)
    | CrashWorker
    | CrashApi
    | Elsewhere(video: VideoId, to: CopyState)   // verify, reclaim: hops outside the download flow
    | Step(actor: ActorId, choice: Choice)

  // ---------------------------------------------------------------- reads --

  function Status(s: State, r: RowId): JobStatus {
    if r in s.rows then s.rows[r].status else COMPLETED
  }

  function VideoOf(s: State, r: RowId): VideoId {
    if r in s.rows then s.rows[r].video else 0
  }

  function Copy(s: State, v: VideoId): CopyState {
    if v in s.videos then s.videos[v] else Candidate
  }

  /** r is an active DOWNLOAD row of v. */
  predicate ActiveRow(s: State, r: RowId, v: VideoId) {
    r in s.rows && s.rows[r].video == v && IsActive(s.rows[r].status)
  }

  predicate HasActiveRow(s: State, v: VideoId) {
    exists r | r in s.rows :: ActiveRow(s, r, v)
  }

  predicate OnRow(actor: Actor, r: RowId) {
    !actor.VideoHealer? && actor.row == r
  }

  // ----------------------------------------------------- what one step sees --

  /** What an actor's next read or write can see: its row, the row's video, its execution. */
  datatype View = View(
    status: JobStatus,
    copy: CopyState,
    exec: Option<Exec>,
    entry: Option<ActorId>)     // the control registry's entry for the row

  /** What the step leaves behind; no actor means the code returned. */
  datatype Effect = Effect(view: View, actor: Option<Actor>, message: Option<Mode>)

  function HopFrom(copy: CopyState, from: CopyState, to: CopyState): CopyState {
    if copy == from then to else copy
  }

  /** queue.add with the row id as custom jobId: a no-op while that job exists. */
  function Added(exec: Option<Exec>): Option<Exec> {
    if exec.Some? then exec else Some(Exec(Pending, 0, 0))
  }

  /** job.remove: refused while the execution is locked by a worker. */
  function Removed(exec: Option<Exec>): Option<Exec> {
    if exec.Some? && !exec.value.life.Active? then None else exec
  }

  function On(w: View, actor: Actor): Effect { Effect(w, Some(actor), None) }

  function End(w: View): Effect { Effect(w, None, None) }

  // -------------------------------------------------------- steps of the worker --

  predicate LastAttempt(p: Actor) requires p.Proc? {
    p.failures + 1 >= DOWNLOAD_ATTEMPTS
  }

  /** The catch of process(): an abort wins over the failure; a final failure settles. */
  function Caught(p: Actor, terminal: bool): ProcPc
    requires p.Proc?
  {
    match p.mode
    case Some(m) => Abort(m)
    case None => if terminal || LastAttempt(p) then FailVideo(terminal) else Requeue
  }

  /** A row write of the processor, remembered in its history. */
  function Wrote(w: View, p: Actor, status: JobStatus, pc: ProcPc): Effect
    requires p.Proc?
  {
    On(w.(status := status), p.(pc := pc, outcome := Some(status)))
  }

  function ProcAct(a: ActorId, p: Actor, w: View, c: Choice): Effect
    requires p.Proc?
  {
    match p.pc
    case ReadVideo =>
      On(w, p.(pc := if w.copy == Verifying || w.copy == Healthy then Rechain else Register(w.copy)))
    case Rechain =>
      if c.Good? then On(w.(status := AfterFinish(w.status, COMPLETED)), p.(pc := Settle(Return)))
      else On(w, p.(pc := Settle(Throw)))
    case Register(seen) => On(w.(entry := Some(a)), p.(pc := Claim(seen)))
    case Claim(seen) =>
      if CanClaim(w.status, p.started) then Wrote(w, p, RUNNING, Begin(seen))
      else On(w, p.(pc := Leave(Return)))
    case Begin(seen) =>
      if seen == Queued then
        On(w.(copy := HopFrom(w.copy, Queued, Downloading)),
           p.(pc := if w.copy == Queued then Session else Recheck))
      else
        On(w, p.(pc := if seen == Downloading then Session else Refuse))
    case Recheck => On(w, p.(pc := if w.copy == Downloading then Session else Refuse))
    case Refuse => Wrote(w, p, AfterFinish(w.status, FAILED), Leave(Unrecoverable))
    case Session => On(w, p.(pc := if c.Good? then Work else Leave(Throw)))
    case Work => On(w, p.(pc := if c.Good? && p.mode.None? then Publish else Caught(p, c.Bad? && c.terminal)))
    case Publish =>
      if c.Good? then
        On(w.(copy := HopFrom(w.copy, Downloading, Verifying)),
           p.(pc := if w.copy == Downloading then Chain else Finish))
      else
        On(w, p.(pc := Caught(p, c.terminal)))
    case Chain => On(w, p.(pc := if c.Good? then Finish else Caught(p, c.terminal)))
    case Finish => Wrote(w, p, AfterFinish(w.status, COMPLETED), Cleanup(Return))
    case Abort(m) =>
      if m == Shutdown then Wrote(w, p, AfterRequeue(w.status), Cleanup(Return))
      else if m == Pause then Wrote(w, p, AfterPause(w.status), Cleanup(Return))
      else if c.Good? then Wrote(w, p, AfterFinish(w.status, CANCELED), ReturnVideo)
      else On(w, p.(pc := Cleanup(Return)))   // removing staging threw: swallowed
    case ReturnVideo => On(w.(copy := HopFrom(w.copy, Downloading, Candidate)), p.(pc := Cleanup(Return)))
    case FailVideo(t) => On(w.(copy := HopFrom(w.copy, Downloading, Failed)), p.(pc := FailRow(t)))
    case FailRow(t) => Wrote(w, p, AfterFinish(w.status, FAILED), Cleanup(if t then Unrecoverable else Throw))
    case Requeue => Wrote(w, p, AfterRequeue(w.status), Cleanup(Throw))
    case Cleanup(x) => On(w, p.(pc := Leave(if c.Good? then x else Throw)))
    case Leave(x) => On(w.(entry := None), p.(pc := Settle(x)))
    case Settle(x) =>
      if w.exec.Some? && w.exec.value.life == Active(a) then
        End(w.(exec := if x == Throw && !LastAttempt(p)
                       then Some(Exec(Pending, w.exec.value.started, p.failures + 1)) else None))
      else
        End(w)   // the lock was lost: BullMQ ignores this call's result
  }

  function VerdictAct(h: Actor, w: View, rivals: bool): Effect
    requires h.Verdict?
  {
    match h.vpc
    case VerdictRead =>
      if w.status == PAUSED || IsTerminal(w.status) then End(w) else On(w, h.(vpc := VerdictFail))
    case VerdictFail => On(w.(status := AfterFinish(w.status, FAILED)), h.(vpc := VerdictVideo))
    case VerdictVideo =>
      if w.copy == Downloading then On(w, h.(vpc := VerdictFailHop))
      else if w.copy == Queued then On(w, h.(vpc := VerdictOwners))
      else End(w)
    case VerdictFailHop => End(w.(copy := HopFrom(w.copy, Downloading, Failed)))
    case VerdictOwners => if rivals then End(w) else On(w, h.(vpc := VerdictCandidateHop))
    case VerdictCandidateHop => End(w.(copy := HopFrom(w.copy, Queued, Candidate)))
  }

  function RowHealerAct(h: Actor, w: View): Effect
    requires h.RowHealer?
  {
    match h.hpc
    case HealCheck =>
      if w.exec.Some? then End(w) else On(w, h.(hpc := if h.seen == RUNNING then HealCas else HealAdd))
    case HealCas => if w.status == RUNNING then On(w.(status := QUEUED), h.(hpc := HealAdd)) else End(w)
    case HealAdd => End(w.(exec := Added(w.exec)))
  }

  // ----------------------------------------------------------- steps of the api --

  function EnqueuerAct(q: Actor, w: View, c: Choice): Effect
    requires q.Enqueuer?
  {
    match q.epc
    case EnqueueAdd => if c.Good? then End(w.(exec := Added(w.exec))) else On(w, q.(epc := CompensateRow))
    case CompensateRow =>
      // The result of this CAS is ignored.
      On(w.(status := if w.status == QUEUED then FAILED else w.status), q.(epc := CompensateVideo))
    case CompensateVideo => End(w.(copy := HopFrom(w.copy, Queued, Candidate)))
  }

  function CancellerAct(q: Actor, w: View, c: Choice): Effect
    requires q.Canceller?
  {
    match q.cpc
    case CancelRead =>
      if IsTerminal(w.status) then End(w)
      else On(w, q.(cpc := if w.status == RUNNING then CancelSignal else CancelRemove))
    case CancelRemove => On(if c.Good? then w.(exec := Removed(w.exec)) else w, q.(cpc := CancelCas))
    case CancelCas =>
      if w.status == QUEUED || w.status == PAUSED then On(w.(status := CANCELED), q.(cpc := CancelVideo))
      else On(w, q.(cpc := CancelRecheck))
    case CancelRecheck => if w.status == RUNNING then On(w, q.(cpc := CancelSignal)) else End(w)
    case CancelSignal => if c.Good? then Effect(w, None, Some(Cancel)) else End(w)
    case CancelVideo => if InFlight(w.copy) then On(w, q.(cpc := CancelHop(w.copy))) else End(w)
    case CancelHop(from) => End(w.(copy := HopFrom(w.copy, from, Candidate)))
  }

  function PauserAct(q: Actor, w: View, c: Choice): Effect
    requires q.Pauser?
  {
    match q.ppc
    case PauseRead =>
      if IsTerminal(w.status) || w.status == PAUSED then End(w)
      else On(w, q.(ppc := if w.status == RUNNING then PauseSignal else PauseRemove))
    case PauseRemove => On(if c.Good? then w.(exec := Removed(w.exec)) else w, q.(ppc := PauseCas))
    case PauseCas => if w.status == QUEUED then End(w.(status := PAUSED)) else On(w, q.(ppc := PauseRecheck))
    case PauseRecheck => if w.status == RUNNING then On(w, q.(ppc := PauseSignal)) else End(w)
    case PauseSignal => if c.Good? then Effect(w, None, Some(Pause)) else End(w)
  }

  function ResumerAct(q: Actor, w: View, c: Choice): Effect
    requires q.Resumer?
  {
    match q.rpc
    case ResumeRead => if w.status != PAUSED then End(w) else On(w, q.(rpc := ResumeWait))
    case ResumeWait =>
      if c.Bad? then End(w)                             // Redis fault, or the settle cap: the row stays PAUSED
      else if w.exec.None? then On(w, q.(rpc := ResumeCas))
      else On(w, q)                                     // poll again
    case ResumeCas => if w.status == PAUSED then On(w.(status := QUEUED), q.(rpc := ResumeAdd)) else End(w)
    case ResumeAdd => if c.Good? then End(w.(exec := Added(w.exec))) else On(w, q.(rpc := ResumeRestore))
    case ResumeRestore => End(w.(status := if w.status == QUEUED then PAUSED else w.status))
  }

  // ------------------------------------------------------- applying one step --

  /** Actors that work on a row. */
  predicate RowActor(actor: Actor) {
    !actor.VideoHealer? && !actor.Message?
  }

  function Act(a: ActorId, actor: Actor, w: View, rivals: bool, c: Choice): Effect
    requires RowActor(actor)
  {
    match actor
    case Proc(_, _, _, _, _, _) => ProcAct(a, actor, w, c)
    case Enqueuer(_, _) => EnqueuerAct(actor, w, c)
    case Canceller(_, _) => CancellerAct(actor, w, c)
    case Pauser(_, _) => PauserAct(actor, w, c)
    case Resumer(_, _) => ResumerAct(actor, w, c)
    case Verdict(_, _) => VerdictAct(actor, w, rivals)
    case RowHealer(_, _, _) => RowHealerAct(actor, w)
  }

  function Put<T>(m: map<nat, T>, k: nat, x: Option<T>): map<nat, T> {
    if x.Some? then m[k := x.value] else m - {k}
  }

  function Look(s: State, r: RowId): View
    requires r in s.rows
  {
    View(Status(s, r), Copy(s, VideoOf(s, r)), Lookup(s.execs, r), Lookup(s.registry, r))
  }

  /** Another active DOWNLOAD row of the same video. */
  predicate Rivals(s: State, r: RowId) {
    exists o | o in s.rows :: o != r && ActiveRow(s, o, VideoOf(s, r))
  }

  function Write(s: State, r: RowId, w: View): State
    requires r in s.rows && s.rows[r].video in s.videos
  {
    s.(rows := s.rows[r := s.rows[r].(status := w.status)],
       videos := s.videos[s.rows[r].video := w.copy],
       execs := Put(s.execs, r, w.exec),
       registry := Put(s.registry, r, w.entry))
  }

  function Spawn(s: State, actor: Actor): State {
    s.(actors := s.actors[s.clock := actor], clock := s.clock + 1)
  }

  function SetActor(s: State, a: ActorId, actor: Option<Actor>): State {
    s.(actors := Put(s.actors, a, actor))
  }

  /** The newest DOWNLOAD row of v, as the sweep's query finds it, decides how a DOWNLOADING video is healed. */
  predicate NewestCanceled(s: State, v: VideoId) {
    exists r | r in s.rows ::
      s.rows[r].video == v && s.rows[r].status == CANCELED &&
      forall o | o in s.rows && s.rows[o].video == v :: o <= r
  }

  function HealedTo(from: CopyState, canceled: bool): CopyState {
    if from == Queued || canceled then Candidate else Failed
  }

  /** ControlSubscriber.handleMessage: a command for an unknown row is a no-op. */
  function Deliver(s: State, r: RowId, m: Mode): State {
    if r in s.registry && s.registry[r] in s.actors && s.actors[s.registry[r]].Proc? then
      SetActor(s, s.registry[r], Some(s.actors[s.registry[r]].(mode := Some(m))))
    else s
  }

  function Apply(s: State, a: ActorId, r: RowId, e: Effect): State
    requires r in s.rows && s.rows[r].video in s.videos
  {
    var s' := SetActor(Write(s, r, e.view), a, e.actor);
    if e.message.Some? then Spawn(s', Message(r, e.message.value)) else s'
  }

  function ActorStep(s: State, a: ActorId, c: Choice): State
    requires a in s.actors && Runnable(s, s.actors[a])
  {
    var actor := s.actors[a];
    match actor
    case VideoHealer(v, from, canceled) =>
      SetActor(s.(videos := s.videos[v := HopFrom(s.videos[v], from, HealedTo(from, canceled))]), a, None)
    case Message(r, m) => Deliver(SetActor(s, a, None), r, m)
    case _ => Apply(s, a, actor.row, Act(a, actor, Look(s, actor.row), Rivals(s, actor.row), c))
  }

  /** Rows and videos are never deleted here, so an actor's row and video exist. */
  predicate Runnable(s: State, actor: Actor) {
    if actor.VideoHealer? then actor.video in s.videos
    else actor.row in s.rows && s.rows[actor.row].video in s.videos
  }

  // ---------------------------------------------------------------- system --

  /** Actors that die with the archive worker's process. */
  predicate OnWorker(actor: Actor) {
    actor.Proc? || actor.Verdict? || actor.RowHealer? || actor.VideoHealer?
  }

  /** Actors that die with the api's process; messages on the wire belong to neither. */
  predicate OnApi(actor: Actor) {
    actor.Enqueuer? || actor.Canceller? || actor.Pauser? || actor.Resumer?
  }

  /**
   * The actor's next hop takes the video, now in state copy, out of QUEUED/DOWNLOADING,
   * or it is about to read which hop to make.
   */
  predicate OwesHop(actor: Actor, copy: CopyState) {
    match actor
    case Proc(_, _, _, pc, _, _) => pc == ReturnVideo && copy == Downloading
    case Enqueuer(_, pc) => pc == CompensateVideo && copy == Queued
    case Canceller(_, pc) => pc == CancelVideo || pc == CancelHop(copy)
    case Verdict(_, pc) =>
      pc == VerdictVideo || (pc == VerdictFailHop && copy == Downloading) ||
      ((pc == VerdictOwners || pc == VerdictCandidateHop) && copy == Queued)
    case _ => false
  }

  /** The actor just settled a row of v and still owes v its hop. */
  predicate Owes(s: State, a: ActorId, v: VideoId) {
    a in s.actors && RowActor(s.actors[a]) && VideoOf(s, s.actors[a].row) == v &&
    OwesHop(s.actors[a], Copy(s, v))
  }

  /** Kill a group of actors; a hop they owed that no active row stands for is recorded as abandoned. */
  function Kill(s: State, doomed: set<ActorId>): State {
    s.(actors := s.actors - doomed,
       abandoned := s.abandoned +
         set v | v in s.videos && !HasActiveRow(s, v) && exists a :: a in doomed && Owes(s, a, v))
  }

  predicate Enabled(s: State, e: Event) {
    match e
    case EnqueueVideo(v) => v in s.videos && Enqueueable(s.videos[v]) && !HasActiveRow(s, v)
    case StartCancel(r) => r in s.rows
    case StartPause(r) => r in s.rows
    case StartResume(r) => r in s.rows
    case Activate(r) => s.phase == Up && r in s.execs && s.execs[r].life == Pending
    case Drain(a) => a in s.actors && s.actors[a].Proc? && Registered(s.actors[a].pc)
    case Stall(r) => s.phase == Up && r in s.execs && s.execs[r].life.Active?
    case FireVerdict(r) => s.phase == Up && r in s.execs && s.execs[r].life == Doomed
    case Boot => s.phase == Down
    case Ready => s.phase == Booting && forall a | a in s.actors :: !s.actors[a].RowHealer? && !s.actors[a].VideoHealer?
    case HealRow(r) => s.phase == Booting && r in s.rows && (s.rows[r].status == QUEUED || s.rows[r].status == RUNNING)
    case HealVideo(v) => s.phase == Booting && v in s.videos && InFlight(s.videos[v]) && !HasActiveRow(s, v)
    case CrashWorker => true
    case CrashApi => true
    case Elsewhere(v, to) =>
      v in s.videos && Allowed(s.videos[v], to) && !InFlight(s.videos[v]) && !InFlight(to)
    case Step(a, _) => a in s.actors && Runnable(s, s.actors[a])
  }

  /** Program counters between register and unregister. */
  predicate Registered(pc: ProcPc) {
    !pc.ReadVideo? && !pc.Rechain? && !pc.Register? && !pc.Settle?
  }

  function Next(s: State, e: Event): State
    requires Enabled(s, e)
  {
    match e
    case EnqueueVideo(v) =>
      var r := s.clock;
      Spawn(s.(rows := s.rows[r := Row(v, QUEUED)], videos := s.videos[v := Queued],
               abandoned := s.abandoned - {v}, clock := r + 1),
            Enqueuer(r, EnqueueAdd))
    case StartCancel(r) => Spawn(s, Canceller(r, CancelRead))
    case StartPause(r) => Spawn(s, Pauser(r, PauseRead))
    case StartResume(r) => Spawn(s, Resumer(r, ResumeRead))
    case Activate(r) =>
      var x := s.execs[r];
      Spawn(s.(execs := s.execs[r := Exec(Active(s.clock), x.started + 1, x.failures)]),
            Proc(r, x.started + 1, x.failures, ReadVideo, None, None))
    case Drain(a) =>
      // entry.mode ??= 'shutdown': a command that already fired wins.
      if s.actors[a].mode.None? then SetActor(s, a, Some(s.actors[a].(mode := Some(Shutdown)))) else s
    case Stall(r) => s.(execs := s.execs[r := s.execs[r].(life := Doomed)])
    case FireVerdict(r) => Spawn(s.(execs := s.execs - {r}), Verdict(r, VerdictRead))
    case Boot => s.(phase := Booting)
    case Ready => s.(phase := Up)
    case HealRow(r) => Spawn(s, RowHealer(r, s.rows[r].status, HealCheck))
    case HealVideo(v) => Spawn(s, VideoHealer(v, s.videos[v], NewestCanceled(s, v)))
    case CrashWorker =>
      Kill(s, set a | a in s.actors && OnWorker(s.actors[a])).(phase := Down, registry := map[])
    case CrashApi =>
      Kill(s, set a | a in s.actors && OnApi(s.actors[a]))
    case Elsewhere(v, to) => s.(videos := s.videos[v := to])
    case Step(a, c) => ActorStep(s, a, c)
  }

  /** A run: every event is enabled where it happens. */
  predicate IsRun(s: State, events: seq<Event>)
    decreases |events|
  {
    events == [] || (Enabled(s, events[0]) && IsRun(Next(s, events[0]), events[1..]))
  }

  function After(s: State, events: seq<Event>): State
    requires IsRun(s, events)
    decreases |events|
  {
    if events == [] then s else After(Next(s, events[0]), events[1..])
  }

  /** Nothing queued, nothing running: only settled videos. */
  predicate Initial(s: State) {
    s.rows == map[] && s.execs == map[] && s.actors == map[] && s.registry == map[] && s.abandoned == {} &&
    forall v | v in s.videos :: !InFlight(s.videos[v])
  }
}
