/**
 * Who answers for a video in flight. Nothing is assumed about scheduling, stalls or
 * crashes: in every interleaving exactly two steps can strand a video, and this module
 * says when they do.
 */
module ProtocolVideos {
  import opened Domain
  import opened VideoStatus
  import opened DownloadProtocol
  import opened ProtocolAlways

  // ------------------------------------------- what a call knows of its video --

  /** What a processor read of its video earlier still says where the video cannot be now. */
  ghost predicate SeenHolds(seen: CopyState, copy: CopyState) {
    (!InFlight(seen) ==> !InFlight(copy)) && (seen == Downloading ==> copy != Queued)
  }

  /** As long as its row is active a call knows where its video cannot be. */
  ghost predicate Sees(p: Actor, w: View)
    requires p.Proc?
  {
    IsActive(w.status) ==>
      match p.pc
      case ReadVideo => true
      case Rechain => !InFlight(w.copy)
      case Register(seen) => SeenHolds(seen, w.copy)
      case Claim(seen) => SeenHolds(seen, w.copy)
      case Begin(seen) => SeenHolds(seen, w.copy)
      case Refuse => !InFlight(w.copy)
      case Chain => !InFlight(w.copy)
      case Finish => !InFlight(w.copy)
      case FailRow(_) => !InFlight(w.copy)
      case Requeue => true
      case ReturnVideo => true
      case Cleanup(_) => true
      case Leave(_) => true
      case Settle(_) => true
      case _ => w.copy != Queued
  }

  ghost predicate AllSee(s: State) {
    forall a | a in s.actors && s.actors[a].Proc? && s.actors[a].row in s.rows ::
      Sees(s.actors[a], Look(s, s.actors[a].row))
  }

  ghost predicate Sound(s: State) {
    Allocated(s) && Grounded(s) && AllSee(s)
  }

  /** A video that moves, but neither back into flight nor back to QUEUED. */
  ghost predicate MovesOn(copy: CopyState, copy': CopyState) {
    (InFlight(copy') ==> InFlight(copy)) && (copy' == Queued ==> copy == Queued)
  }

  lemma ActSees(a: ActorId, p: Actor, w: View, c: Choice)
    requires p.Proc? && Sees(p, w)
    ensures var e := ProcAct(a, p, w, c); e.actor.Some? ==> e.actor.value.Proc? && Sees(e.actor.value, e.view)
  {}

  lemma ActMovesOn(a: ActorId, actor: Actor, w: View, rivals: bool, c: Choice)
    requires RowActor(actor)
    ensures var e := Act(a, actor, w, rivals, c);
      MovesOn(w.copy, e.view.copy) && (IsActive(e.view.status) ==> IsActive(w.status))
  {}

  lemma ActKeepsKind(a: ActorId, actor: Actor, w: View, rivals: bool, c: Choice)
    requires RowActor(actor)
    ensures var e := Act(a, actor, w, rivals, c); e.actor.Some? ==> e.actor.value.Proc? == actor.Proc?
  {}

  lemma MovingOnKeepsSight(p: Actor, w: View, w': View)
    requires p.Proc? && Sees(p, w) && MovesOn(w.copy, w'.copy) && (IsActive(w'.status) ==> IsActive(w.status))
    ensures Sees(p, w')
  {}

  lemma ApplyKeepsSight(s: State, a: ActorId, r: RowId, e: Effect)
    requires Sound(s) && a in s.actors && r in s.rows
    requires MovesOn(Copy(s, VideoOf(s, r)), e.view.copy) && (IsActive(e.view.status) ==> IsActive(Status(s, r)))
    requires e.actor.Some? ==> e.actor.value.Proc? ==> e.actor.value.row == r && Sees(e.actor.value, e.view)
    ensures AllSee(Apply(s, a, r, e))
  {
    var t := Apply(s, a, r, e);
    forall b | b in t.actors && t.actors[b].Proc? && t.actors[b].row in t.rows
      ensures Sees(t.actors[b], Look(t, t.actors[b].row))
    {
      LookAfter(s, a, r, e, t.actors[b].row);
      if b != a {
        assert t.actors[b] == s.actors[b];
        MovingOnKeepsSight(s.actors[b], Look(s, t.actors[b].row), Look(t, t.actors[b].row));
      }
    }
  }

  lemma StepKeepsSight(s: State, a: ActorId, c: Choice)
    requires Sound(s) && Enabled(s, Step(a, c)) && RowActor(s.actors[a])
    ensures AllSee(Next(s, Step(a, c)))
  {
    var actor := s.actors[a];
    var w, rivals := Look(s, actor.row), Rivals(s, actor.row);
    ActMovesOn(a, actor, w, rivals, c);
    ActStaysOnRow(a, actor, w, rivals, c);
    ActKeepsKind(a, actor, w, rivals, c);
    if actor.Proc? { ActSees(a, actor, w, c); }
    ApplyKeepsSight(s, a, actor.row, Act(a, actor, w, rivals, c));
  }

  /** The other events move a video of an active row out of flight, if at all. */
  lemma OtherEventsMoveOn(s: State, e: Event, r: RowId)
    requires Sound(s) && Enabled(s, e) && (e.Step? ==> !RowActor(s.actors[e.actor])) && r in s.rows
    ensures var t := Next(s, e);
      r in t.rows && t.rows[r] == s.rows[r] &&
      (IsActive(s.rows[r].status) ==> MovesOn(Copy(s, VideoOf(s, r)), Copy(t, VideoOf(t, r))))
  {
    if e.EnqueueVideo? && s.rows[r].video == e.video {
      assert !ActiveRow(s, r, e.video);
    }
  }

  /** A new processor has read nothing yet. */
  lemma NewCallHasReadNothing(s: State, e: Event, b: ActorId)
    requires Enabled(s, e) && Allocated(s) && (e.Step? ==> !RowActor(s.actors[e.actor]))
    requires b in Next(s, e).actors && b !in s.actors && Next(s, e).actors[b].Proc?
    ensures Next(s, e).actors[b].pc == ReadVideo
  {}

  lemma OldCallKeepsSight(s: State, e: Event, b: ActorId)
    requires Sound(s) && Enabled(s, e) && (e.Step? ==> !RowActor(s.actors[e.actor]))
    requires b in s.actors && b in Next(s, e).actors && Next(s, e).actors[b].Proc?
    ensures Next(s, e).actors[b].row in Next(s, e).rows ==>
      Sees(Next(s, e).actors[b], Look(Next(s, e), Next(s, e).actors[b].row))
  {
    ActorFrame(s, e, b);
    OtherEventsMoveOn(s, e, s.actors[b].row);
    assert Sees(s.actors[b], Look(s, s.actors[b].row));
  }

  lemma OtherEventsKeepSight(s: State, e: Event)
    requires Sound(s) && Enabled(s, e) && (e.Step? ==> !RowActor(s.actors[e.actor]))
    ensures AllSee(Next(s, e))
  {
    var t := Next(s, e);
    forall b | b in t.actors && t.actors[b].Proc? && t.actors[b].row in t.rows
      ensures Sees(t.actors[b], Look(t, t.actors[b].row))
    {
      if b in s.actors { OldCallKeepsSight(s, e, b); } else { NewCallHasReadNothing(s, e, b); }
    }
  }

  /** Every event of every interleaving keeps what the calls know. */
  lemma EventKeepsSound(s: State, e: Event)
    requires Sound(s) && Enabled(s, e)
    ensures Sound(Next(s, e))
  {
    EventAdvances(s, e);
    EventKeepsGrounded(s, e);
    if e.Step? && RowActor(s.actors[e.actor]) {
      StepKeepsSight(s, e.actor, e.choice);
    } else {
      OtherEventsKeepSight(s, e);
    }
  }

  // ------------------------------------------------------------- stranding --

  /** A QUEUED or DOWNLOADING video has an active row, a debtor, or a crash to blame. */
  ghost predicate Owned(s: State, v: VideoId) {
    v in s.videos && InFlight(s.videos[v]) ==>
      HasActiveRow(s, v) || (exists a :: Owes(s, a, v)) || v in s.abandoned
  }

  /** A call begins v for a row that has been settled since it was claimed. */
  predicate BeginsSettled(actor: Actor, w: View) {
    actor.Proc? && actor.pc == Begin(Queued) && w.copy == Queued && !IsActive(w.status)
  }

  /** A rejected add is compensated on a row that has run in the meantime. */
  predicate CompensatesLate(actor: Actor, w: View) {
    actor.Enqueuer? && actor.epc == CompensateRow && w.status == QUEUED && w.copy == Downloading
  }

  /** Somebody else answers for v once it is DOWNLOADING. */
  ghost predicate Vouched(s: State, a: ActorId, v: VideoId)
    requires a in s.actors && RowActor(s.actors[a])
  {
    || v in s.abandoned
    || (exists o | o in s.rows :: o != s.actors[a].row && ActiveRow(s, o, v))
    || (exists b | b in s.actors ::
          b != a && RowActor(s.actors[b]) && VideoOf(s, s.actors[b].row) == v && OwesHop(s.actors[b], Downloading))
  }

  /** The event is one of the two steps, and nobody else answers for the video. */
  ghost predicate Strands(s: State, e: Event, v: VideoId)
    requires Enabled(s, e)
  {
    e.Step? && RowActor(s.actors[e.actor]) && VideoOf(s, s.actors[e.actor].row) == v &&
    (BeginsSettled(s.actors[e.actor], Look(s, s.actors[e.actor].row)) ||
     CompensatesLate(s.actors[e.actor], Look(s, s.actors[e.actor].row))) &&
    !Vouched(s, e.actor, v)
  }

  // -------------------------------------------------------------- the debts --

  ghost predicate Careful(actor: Actor, w: View) {
    !BeginsSettled(actor, w) && !CompensatesLate(actor, w)
  }

  /** Whoever settles a row of an in-flight video takes on the hop, and keeps it until it is made. */
  lemma ActPaysDebt(a: ActorId, actor: Actor, w: View, rivals: bool, c: Choice)
    requires RowActor(actor) && (actor.Proc? ==> Sees(actor, w)) && Careful(actor, w)
    ensures var e := Act(a, actor, w, rivals, c);
      InFlight(e.view.copy) && !IsActive(e.view.status) && (IsActive(w.status) || OwesHop(actor, w.copy)) ==>
        rivals || (e.actor.Some? && OwesHop(e.actor.value, e.view.copy))
  {}

  /** A video changes its place in flight only for an active row. */
  lemma ActHops(a: ActorId, actor: Actor, w: View, rivals: bool, c: Choice)
    requires RowActor(actor) && (actor.Proc? ==> Sees(actor, w)) && Careful(actor, w)
    ensures var e := Act(a, actor, w, rivals, c);
      InFlight(e.view.copy) && e.view.copy != w.copy ==> IsActive(e.view.status)
  {}

  /** The other rows' activity and the other debts survive the effect. */
  lemma ApplySparesOwners(s: State, a: ActorId, r: RowId, e: Effect, v: VideoId)
    requires Allocated(s) && Grounded(s) && r in s.rows
    ensures var s' := Apply(s, a, r, e);
      && (forall o | o in s.rows && o != r && ActiveRow(s, o, v) :: ActiveRow(s', o, v))
      && (Copy(s', v) == Copy(s, v) ==> forall b | b != a && Owes(s, b, v) :: Owes(s', b, v))
  {}

  ghost predicate PaysDebt(s: State, a: ActorId, r: RowId, e: Effect)
    requires a in s.actors && r in s.rows
  {
    && (InFlight(e.view.copy) && !IsActive(e.view.status) &&
        (IsActive(Status(s, r)) || OwesHop(s.actors[a], Copy(s, VideoOf(s, r)))) ==>
          Rivals(s, r) || (e.actor.Some? && OwesHop(e.actor.value, e.view.copy)))
    && (InFlight(e.view.copy) && e.view.copy != Copy(s, VideoOf(s, r)) ==> IsActive(e.view.status))
    && (InFlight(e.view.copy) ==> InFlight(Copy(s, VideoOf(s, r))))
  }

  lemma SettledRowLeavesOwner(s: State, a: ActorId, r: RowId, e: Effect)
    requires Allocated(s) && Grounded(s) && r in s.rows && Owned(s, VideoOf(s, r))
    requires a in s.actors && RowActor(s.actors[a]) && s.actors[a].row == r
    requires e.actor.Some? ==> RowActor(e.actor.value) && e.actor.value.row == r
    requires PaysDebt(s, a, r, e) && InFlight(e.view.copy) && !Rivals(s, r) && VideoOf(s, r) !in s.abandoned
    ensures Owned(Apply(s, a, r, e), VideoOf(s, r))
  {
    var s' := Apply(s, a, r, e);
    var v := VideoOf(s, r);
    ApplySparesOwners(s, a, r, e, v);
    if IsActive(e.view.status) {
      assert ActiveRow(s', r, v);
    } else if IsActive(Status(s, r)) || OwesHop(s.actors[a], Copy(s, v)) {
      assert Owes(s', a, v);
    } else {
      assert !HasActiveRow(s, v);
      var b :| Owes(s, b, v);
      assert Owes(s', b, v);
    }
  }

  /** Writing an effect whose author pays its debts keeps every video owned. */
  lemma ApplyKeepsOwned(s: State, a: ActorId, r: RowId, e: Effect, v: VideoId)
    requires Allocated(s) && Grounded(s) && Owned(s, v) && r in s.rows
    requires a in s.actors && RowActor(s.actors[a]) && s.actors[a].row == r
    requires e.actor.Some? ==> RowActor(e.actor.value) && e.actor.value.row == r
    requires PaysDebt(s, a, r, e)
    ensures Owned(Apply(s, a, r, e), v)
  {
    var s' := Apply(s, a, r, e);
    ApplySparesOwners(s, a, r, e, v);
    LookAfter(s, a, r, e, r);
    if v in s'.videos && InFlight(s'.videos[v]) && v !in s.abandoned {
      if o :| o in s.rows && ActiveRow(s, o, v) && o != r {
        assert ActiveRow(s', o, v);
      } else if v == VideoOf(s, r) {
        SettledRowLeavesOwner(s, a, r, e);
      } else {
        var b :| Owes(s, b, v);
        assert Owes(s', b, v);
      }
    }
  }

  /** A step that is neither of the two keeps every video owned. */
  lemma CarefulStepKeepsOwned(s: State, a: ActorId, c: Choice, v: VideoId)
    requires Sound(s) && Owned(s, v) && Enabled(s, Step(a, c)) && RowActor(s.actors[a])
    requires VideoOf(s, s.actors[a].row) == v ==> Careful(s.actors[a], Look(s, s.actors[a].row))
    ensures Owned(Next(s, Step(a, c)), v)
  {
    var actor := s.actors[a];
    var r := actor.row;
    var w, rivals := Look(s, r), Rivals(s, r);
    var e := Act(a, actor, w, rivals, c);
    ActStaysOnRow(a, actor, w, rivals, c);
    if VideoOf(s, r) == v {
      ActMovesOn(a, actor, w, rivals, c);
      ActPaysDebt(a, actor, w, rivals, c);
      ActHops(a, actor, w, rivals, c);
      ApplyKeepsOwned(s, a, r, e, v);
    } else {
      ElsewhereSparesOwned(s, a, r, e, v);
    }
  }

  lemma ElsewhereSparesOwned(s: State, a: ActorId, r: RowId, e: Effect, v: VideoId)
    requires Sound(s) && Owned(s, v) && r in s.rows && VideoOf(s, r) != v
    requires a in s.actors && RowActor(s.actors[a]) && s.actors[a].row == r
    requires e.actor.Some? ==> RowActor(e.actor.value) && e.actor.value.row == r
    ensures Owned(Apply(s, a, r, e), v)
  {
    var t := Apply(s, a, r, e);
    ApplySparesOwners(s, a, r, e, v);
    if v in t.videos && InFlight(t.videos[v]) {
      if o :| o in s.rows && ActiveRow(s, o, v) {
        assert ActiveRow(t, o, v);
      } else if b :| Owes(s, b, v) {
        assert Owes(t, b, v);
      }
    }
  }

  /** After one of the two steps v is DOWNLOADING and only somebody else can answer for it. */
  lemma CarelessStep(s: State, a: ActorId, c: Choice)
    requires Sound(s) && Enabled(s, Step(a, c)) && RowActor(s.actors[a])
    requires !Careful(s.actors[a], Look(s, s.actors[a].row))
    ensures var v := VideoOf(s, s.actors[a].row);
      Owned(Next(s, Step(a, c)), v) <==> Vouched(s, a, v)
  {
    var actor := s.actors[a];
    var r := actor.row;
    var v := VideoOf(s, r);
    var e := Act(a, actor, Look(s, r), Rivals(s, r), c);
    CarelessEffect(a, actor, Look(s, r), Rivals(s, r), c);
    var t := Apply(s, a, r, e);
    LookAfter(s, a, r, e, r);
    ApplyOwn(s, a, r, e);
    assert Copy(t, v) == Downloading;
    forall o | o in s.rows ensures ActiveRow(t, o, v) <==> o != r && ActiveRow(s, o, v) {}
    forall b | b != a ensures Owes(t, b, v) <==>
      b in s.actors && RowActor(s.actors[b]) && VideoOf(s, s.actors[b].row) == v && OwesHop(s.actors[b], Downloading) {
      if b in s.actors { ApplyFrame(s, a, r, e, b); }
    }
    assert !Owes(t, a, v);
  }

  lemma CarelessEffect(a: ActorId, actor: Actor, w: View, rivals: bool, c: Choice)
    requires RowActor(actor) && !Careful(actor, w)
    ensures var e := Act(a, actor, w, rivals, c);
      e.view.copy == Downloading && !IsActive(e.view.status) && e.message.None? &&
      e.actor.Some? && e.actor.value.row == actor.row && !OwesHop(e.actor.value, Downloading)
  {}

  // ------------------------------------------------------------ other events --

  /** Two states in which the same owners can be pointed at. */
  ghost predicate SameOwners(s: State, s': State, v: VideoId) {
    && (forall o | o in s.rows && ActiveRow(s, o, v) :: ActiveRow(s', o, v))
    && (forall b | Owes(s, b, v) :: Owes(s', b, v))
    && (v in s.abandoned ==> v in s'.abandoned)
  }

  lemma OwnedCarries(s: State, s': State, v: VideoId)
    requires Owned(s, v)
    requires v in s'.videos && InFlight(s'.videos[v]) ==>
      v in s.videos && InFlight(s.videos[v]) && SameOwners(s, s', v)
    ensures Owned(s', v)
  {
    if v in s'.videos && InFlight(s'.videos[v]) {
      if o :| o in s.rows && ActiveRow(s, o, v) {
        assert ActiveRow(s', o, v);
      } else if b :| Owes(s, b, v) {
        assert Owes(s', b, v);
      }
    }
  }

  /** A killed debtor leaves its debt to the history of abandoned hops. */
  lemma KillKeepsOwned(s: State, doomed: set<ActorId>, v: VideoId)
    requires Owned(s, v)
    ensures Owned(Kill(s, doomed), v)
  {
    var s' := Kill(s, doomed);
    if v in s'.videos && InFlight(s'.videos[v]) {
      if o :| o in s.rows && ActiveRow(s, o, v) {
        assert ActiveRow(s', o, v);
      } else if b :| Owes(s, b, v) {
        if b in doomed { assert v in s'.abandoned; } else { assert Owes(s', b, v); }
      }
    }
  }

  lemma CrashKeepsOwned(s: State, e: Event, v: VideoId)
    requires Owned(s, v) && Enabled(s, e) && (e.CrashWorker? || e.CrashApi?)
    ensures Owned(Next(s, e), v)
  {
    var doomed := set a | a in s.actors && if e.CrashWorker? then OnWorker(s.actors[a]) else OnApi(s.actors[a]);
    KillKeepsOwned(s, doomed, v);
    OwnedCarries(Kill(s, doomed), Next(s, e), v);
  }

  /** Debts survive, whatever happens to modes, executions, messages and healers. */
  lemma DebtsSurvive(s: State, e: Event, b: ActorId, v: VideoId)
    requires Sound(s) && Enabled(s, e) && (e.Step? ==> !RowActor(s.actors[e.actor]))
    requires !e.CrashWorker? && !e.CrashApi? && Owes(s, b, v) && Copy(Next(s, e), v) == Copy(s, v)
    ensures Owes(Next(s, e), b, v)
  {
    assert b in Next(s, e).actors;
    ActorFrame(s, e, b);
    OtherEventsMoveOn(s, e, s.actors[b].row);
  }

  lemma OtherEventsKeepOwned(s: State, e: Event, v: VideoId)
    requires Sound(s) && Owned(s, v) && Enabled(s, e) && (e.Step? ==> !RowActor(s.actors[e.actor]))
    ensures Owned(Next(s, e), v)
  {
    var t := Next(s, e);
    if e.CrashWorker? || e.CrashApi? {
      CrashKeepsOwned(s, e, v);
    } else if e == EnqueueVideo(v) {
      assert ActiveRow(t, s.clock, v);
    } else {
      forall o | o in s.rows && ActiveRow(s, o, v) ensures ActiveRow(t, o, v) { OtherEventsMoveOn(s, e, o); }
      if InFlight(Copy(t, v)) {
        assert Copy(t, v) == Copy(s, v);
        forall b | Owes(s, b, v) ensures Owes(t, b, v) { DebtsSurvive(s, e, b, v); }
      }
      OwnedCarries(s, t, v);
    }
  }

  // ------------------------------------------------------------ main results --

  /** One event leaves an owned video without an owner if and only if it strands it. */
  lemma EventKeepsOwnedExactly(s: State, e: Event, v: VideoId)
    requires Sound(s) && Owned(s, v) && Enabled(s, e)
    ensures Owned(Next(s, e), v) <==> !Strands(s, e, v)
  {
    if e.Step? && RowActor(s.actors[e.actor]) {
      var actor := s.actors[e.actor];
      if VideoOf(s, actor.row) == v && !Careful(actor, Look(s, actor.row)) {
        CarelessStep(s, e.actor, e.choice);
      } else {
        CarefulStepKeepsOwned(s, e.actor, e.choice, v);
      }
    } else {
      OtherEventsKeepOwned(s, e, v);
    }
  }

  /** v is owned in every state the run passes through. */
  ghost predicate AlwaysOwned(s: State, events: seq<Event>, v: VideoId)
    requires IsRun(s, events)
    decreases |events|
  {
    Owned(s, v) && (events == [] || AlwaysOwned(Next(s, events[0]), events[1..], v))
  }

  ghost predicate NeverStranded(s: State, events: seq<Event>, v: VideoId)
    requires IsRun(s, events)
    decreases |events|
  {
    events == [] || (!Strands(s, events[0], v) && NeverStranded(Next(s, events[0]), events[1..], v))
  }

  lemma {:induction false} OwnedExactly(s: State, events: seq<Event>, v: VideoId)
    requires Sound(s) && Owned(s, v) && IsRun(s, events)
    ensures AlwaysOwned(s, events, v) <==> NeverStranded(s, events, v)
    decreases |events|
  {
    if events != [] {
      EventKeepsSound(s, events[0]);
      EventKeepsOwnedExactly(s, events[0], v);
      if Owned(Next(s, events[0]), v) {
        OwnedExactly(Next(s, events[0]), events[1..], v);
      } else {
        assert !AlwaysOwned(Next(s, events[0]), events[1..], v);
      }
    }
  }

  /**
   * In every interleaving, with any stalls, crashes, drains and overlapping commands: a
   * QUEUED or DOWNLOADING video always has an active row, an actor that has settled its row
   * and still owes the hop, or a crash that killed one, if and only if no call begins it
   * for a row that was settled after its claim and no rejected add is compensated after the
   * row has run, unless somebody else answers for the video at that moment.
   */
  lemma VideosStayOwned(s: State, events: seq<Event>, v: VideoId)
    requires Initial(s) && IsRun(s, events)
    ensures AlwaysOwned(s, events, v) <==> NeverStranded(s, events, v)
  {
    OwnedExactly(s, events, v);
  }
}
