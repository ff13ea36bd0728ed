/**
 * The end of a live capture: classify it by measurement, park it while it cannot be
 * measured, and let the chained verify confirm it.
 */
module LiveEnd {
  import opened Domain

  // ------------------------------------------------------------------- numbers --

  /** A JavaScript number; finite arithmetic is exact here. */
  datatype Num = Finite(value: real) | NaN | PlusInf | MinusInf

  predicate Le(a: Num, b: Num) {
    match (a, b)
    case (Finite(x), Finite(y)) => x <= y
    case (NaN, _) => false
    case (_, NaN) => false
    case (MinusInf, _) => true
    case (_, PlusInf) => true
    case _ => false
  }

  function Neg(a: Num): Num {
    match a
    case Finite(x) => Finite(-x)
    case NaN => NaN
    case PlusInf => MinusInf
    case MinusInf => PlusInf
  }

  function Plus(a: Num, b: Num): Num {
    match (a, b)
    case (Finite(x), Finite(y)) => Finite(x + y)
    case (NaN, _) => NaN
    case (_, NaN) => NaN
    case (PlusInf, MinusInf) => NaN
    case (MinusInf, PlusInf) => NaN
    case (PlusInf, _) => PlusInf
    case (_, PlusInf) => PlusInf
    case _ => MinusInf
  }

  function Minus(a: Num, b: Num): Num {
    Plus(a, Neg(b))
  }

  /** Math.max(1, expected * 0.02) */
  function Tolerance(expected: Num): Num {
    match expected
    case Finite(x) => if x * 0.02 > 1.0 then Finite(x * 0.02) else Finite(1.0)
    case NaN => NaN
    case PlusInf => PlusInf
    case MinusInf => Finite(1.0)
  }

  function Abs(a: Num): Num {
    match a
    case Finite(x) => Finite(if x < 0.0 then -x else x)
    case NaN => NaN
    case _ => PlusInf
  }

  const ZERO := Finite(0.0)

  // ------------------------------------------------------------------ verdicts --

  datatype LiveStatus = is_live | is_upcoming | post_live | was_live | not_live | unknown

  datatype EndKind = NORMAL | INTERRUPTED | PENDING | EMPTY

  function ClassifyLiveCompleteness(
      retainedFile: bool, captured: Option<Num>, expected: Option<Num>, status: Option<LiveStatus>): EndKind {
    if !retainedFile || captured.None? || Le(captured.value, ZERO) then EMPTY
    else if status.Some? && (status.value == is_live || status.value == is_upcoming || status.value == post_live)
        then PENDING
    else if expected.None? || Le(expected.value, ZERO) then PENDING
    else if Le(Minus(expected.value, captured.value), Tolerance(expected.value)) then NORMAL
    else INTERRUPTED
  }

  datatype Reason = EmptyFile | Unreadable | NoVideoStream | DurationMismatch

  datatype Probe = Probe(duration: Option<Num>, hasVideo: bool, streams: int)

  predicate UsableDuration(d: Option<Num>) {
    d.Some? && d.value.Finite? && d.value.value > 0.0
  }

  /** Within the larger of one second and two percent, in both directions. */
  predicate Within(duration: real, expected: real) {
    -(if expected * 0.02 > 1.0 then expected * 0.02 else 1.0) <= duration - expected
      <= (if expected * 0.02 > 1.0 then expected * 0.02 else 1.0)
  }

  /** What a healthy file is: readable, with video, and as long as the source said, if it said. */
  predicate Intact(probe: Probe, size: int, expected: Option<Num>) {
    size > 0 && probe.streams > 0 && UsableDuration(probe.duration) && probe.hasVideo &&
    (UsableDuration(expected) ==> Within(probe.duration.value.value, expected.value.value))
  }

  /** The tier-1 check: every complaint is justified, and none is missed. */
  method EvaluateIntegrity(probe: Probe, size: int, expected: Option<Num>) returns (reasons: seq<Reason>)
    ensures reasons == [] <==> Intact(probe, size, expected)
    ensures size <= 0 ==> reasons == [EmptyFile]
    ensures size > 0 ==>
      (Unreadable in reasons <==> probe.streams <= 0 || !UsableDuration(probe.duration))
    ensures size > 0 ==> (NoVideoStream in reasons <==> !probe.hasVideo)
    ensures size > 0 ==>
      (DurationMismatch in reasons <==>
       UsableDuration(probe.duration) && UsableDuration(expected) &&
       !Within(probe.duration.value.value, expected.value.value))
  {
    if size <= 0 { return [EmptyFile]; }
    reasons := [];
    var durationOk := UsableDuration(probe.duration);
    if probe.streams <= 0 || !durationOk { reasons := reasons + [Unreadable]; }
    if !probe.hasVideo { reasons := reasons + [NoVideoStream]; }
    if expected.Some? && !Le(expected.value, ZERO) && expected.value != NaN && durationOk {
      var drift := Abs(Minus(probe.duration.value, expected.value));
      if !Le(drift, Tolerance(expected.value)) { reasons := reasons + [DurationMismatch]; }
    }
  }

  /** A capture measured short never passes the verify that would follow it. */
  lemma InterruptedNeverVerifies(captured: real, expected: real, status: Option<LiveStatus>, probe: Probe, size: int)
    requires ClassifyLiveCompleteness(true, Some(Finite(captured)), Some(Finite(expected)), status) == INTERRUPTED
    requires probe.duration == Some(Finite(captured))
    ensures !Intact(probe, size, Some(Finite(expected)))
  {}

  /** A capture measured complete passes its length check exactly when it does not over-run. */
  lemma NormalVerifiesUnlessOverrun(captured: real, expected: real, status: Option<LiveStatus>, probe: Probe, size: int)
    requires ClassifyLiveCompleteness(true, Some(Finite(captured)), Some(Finite(expected)), status) == NORMAL
    requires probe.duration == Some(Finite(captured)) && size > 0 && probe.streams > 0 && probe.hasVideo
    ensures Intact(probe, size, Some(Finite(expected))) <==>
        Le(Finite(captured - expected), Tolerance(Finite(expected)))
  {}

  // ------------------------------------------------------------------- the row --

  const MINUTE := 60_000
  const COMPLETENESS_DEADLINE_MS := 24 * 60 * MINUTE

  function RecheckDelay(elapsed: int): int {
    if elapsed < 30 * MINUTE then 3 * MINUTE else if elapsed < 180 * MINUTE then 15 * MINUTE else 60 * MINUTE
  }

  /** The columns the live end reads and writes; measured is history: what the passed verify probed. */
  datatype Row = Row(
    copy: CopyState,
    source: Option<Num>,          // sourceDurationSeconds
    nextCheck: Option<int>,
    deadline: Option<int>,
    measured: Option<real>)

  /** Exit of a capture with bytes published. */
  function Finalized(v: Row, captured: Option<Num>, vod: Option<Num>, status: Option<LiveStatus>, now: int): Row {
    if v.copy != Downloading then v
    else
      match ClassifyLiveCompleteness(true, captured, vod, status)
      case NORMAL => v.(copy := Verifying, source := vod)
      case PENDING =>
        v.(copy := AwaitingVerify, source := None,
           nextCheck := Some(now + RecheckDelay(0)), deadline := Some(now + COMPLETENESS_DEADLINE_MS))
      case _ => v.(copy := PartialKept, source := None)
  }

  datatype Recheck = Skipped | ResolvedNormal | ResolvedPartial | DeadlinePartial | Deferred

  function ElapsedSincePark(v: Row, now: int): int {
    var e := if v.deadline.Some? then now - (v.deadline.value - COMPLETENESS_DEADLINE_MS) else 0;
    if e < 0 then 0 else e
  }

  function RecheckOutcome(
      v: Row, session: bool, captured: Option<Num>, vod: Option<Num>, status: Option<LiveStatus>, now: int): Recheck {
    if !session then Skipped
    else
      match ClassifyLiveCompleteness(true, captured, vod, status)
      case NORMAL => ResolvedNormal
      case INTERRUPTED => ResolvedPartial
      case _ => if v.deadline.Some? && now >= v.deadline.value then DeadlinePartial else Deferred
  }

  function Rechecked(v: Row, outcome: Recheck, vod: Option<Num>, now: int): Row {
    if v.copy != AwaitingVerify then v
    else
      match outcome
      case Skipped => v
      case ResolvedNormal => v.(copy := Verifying, source := vod, nextCheck := None, deadline := None)
      case Deferred => v.(nextCheck := Some(now + RecheckDelay(ElapsedSincePark(v, now))))
      case _ => v.(copy := PartialKept, source := None, nextCheck := None, deadline := None)
  }

  /** The chained verify; a length the source never reported is filled in from the probe. */
  function Verified(v: Row, probe: Probe, size: int): Row {
    if v.copy != Verifying then v
    else
      var w := if v.source.None? then v.(source := probe.duration) else v;
      if Intact(probe, size, v.source) then w.(copy := Healthy, measured := Some(probe.duration.value.value))
      else w.(copy := Failed)
  }

  class Capture {
    var row: Row

    constructor (row: Row)
      ensures this.row == row
    {
      this.row := row;
    }

    method FinalizeExit(captured: Option<Num>, vod: Option<Num>, status: Option<LiveStatus>, now: int)
      modifies this
      ensures row == Finalized(old(row), captured, vod, status, now)
    {
      var verdict := ClassifyLiveCompleteness(true, captured, vod, status);
      if row.copy != Downloading { return; }
      if verdict == NORMAL {
        row := row.(copy := Verifying, source := vod);
        return;
      }
      if verdict == PENDING {
        row := row.(copy := AwaitingVerify, source := None);
        row := row.(nextCheck := Some(now + RecheckDelay(0)), deadline := Some(now + COMPLETENESS_DEADLINE_MS));
        return;
      }
      row := row.(copy := PartialKept, source := None);
    }

    method RecheckCompleteness(session: bool, captured: Option<Num>, vod: Option<Num>, status: Option<LiveStatus>,
            now: int)
      returns (outcome: Recheck)
      modifies this
      ensures outcome == RecheckOutcome(old(row), session, captured, vod, status, now)
      ensures row == Rechecked(old(row), outcome, vod, now)
    {
      if !session { return Skipped; }
      var verdict := ClassifyLiveCompleteness(true, captured, vod, status);
      if verdict == NORMAL {
        if row.copy == AwaitingVerify {
          row := row.(copy := Verifying, source := vod, nextCheck := None, deadline := None);
        }
        return ResolvedNormal;
      }
      if verdict == INTERRUPTED {
        ResolvePartial();
        return ResolvedPartial;
      }
      if row.deadline.Some? && now >= row.deadline.value {
        ResolvePartial();
        return DeadlinePartial;
      }
      if row.copy == AwaitingVerify {
        row := row.(nextCheck := Some(now + RecheckDelay(ElapsedSincePark(row, now))));
      }
      return Deferred;
    }

    method ResolvePartial()
      modifies this
      ensures row == if old(row).copy == AwaitingVerify
                     then old(row).(copy := PartialKept, source := None, nextCheck := None, deadline := None)
                     else old(row)
    {
      if row.copy == AwaitingVerify {
        row := row.(copy := PartialKept, source := None, nextCheck := None, deadline := None);
      }
    }

    /** The scheduler's own bump for a re-check that threw. */
    method ProvisionalDefer(now: int)
      modifies this
      ensures row == Step(old(row), Fault(now))
    {
      if row.copy == AwaitingVerify {
        row := row.(nextCheck := Some(now + RecheckDelay(ElapsedSincePark(row, now))));
      }
    }

    method Verify(probe: Probe, size: int)
      modifies this
      ensures row == Verified(old(row), probe, size)
    {
      if row.copy != Verifying { return; }
      var expected := row.source;
      if row.source.None? && probe.duration.Some? { row := row.(source := probe.duration); }
      var reasons := EvaluateIntegrity(probe, size, expected);
      if reasons == [] {
        row := row.(copy := Healthy, measured := Some(probe.duration.value.value));
      } else {
        row := row.(copy := Failed);
      }
    }
  }

  // --------------------------------------------------------------- whole lives --

  datatype Event =
    | Finalize(captured: Option<Num>, vod: Option<Num>, status: Option<LiveStatus>, at: int)
    | Check(session: bool, captured: Option<Num>, vod: Option<Num>, status: Option<LiveStatus>, at: int)
    | Fault(at: int)          // a re-check that threw: the scheduler bumps the cursor in its stead
    | RunVerify(probe: Probe, size: int)

  function Step(v: Row, e: Event): Row {
    match e
    case Finalize(captured, vod, status, at) => Finalized(v, captured, vod, status, at)
    case Check(session, captured, vod, status, at) =>
      Rechecked(v, RecheckOutcome(v, session, captured, vod, status, at), vod, at)
    case Fault(at) => Rechecked(v, Deferred, None, at)
    case RunVerify(probe, size) => Verified(v, probe, size)
  }

  function Run(v: Row, events: seq<Event>): Row
    decreases |events|
  {
    if events == [] then v else Run(Step(v, events[0]), events[1..])
  }

  /** A usable source length is on record while a live capture is verified, and met once HEALTHY. */
  ghost predicate Measured(v: Row) {
    && (v.copy == Verifying ==> v.source.Some? && !Le(v.source.value, ZERO))
    && (v.copy == Healthy ==>
          v.measured.Some? && v.source.Some? &&
          (UsableDuration(v.source) ==> Within(v.measured.value, v.source.value.value)))
  }

  lemma {:induction false} RunKeepsMeasured(v: Row, events: seq<Event>)
    requires Measured(v)
    ensures Measured(Run(v, events))
    decreases |events|
  {
    if events != [] { RunKeepsMeasured(Step(v, events[0]), events[1..]); }
  }

  /** VOD lengths that the probes report are finite, as yt-dlp's JSON can only carry such. */
  ghost predicate FiniteVods(events: seq<Event>) {
    forall e | e in events && (e.Finalize? || e.Check?) && e.vod.Some? :: e.vod.value.Finite?
  }

  ghost predicate FiniteSource(v: Row) {
    v.copy == Verifying || v.copy == Healthy ==> v.source.Some? && v.source.value.Finite? && v.source.value.value > 0.0
  }

  lemma {:induction false} RunKeepsFinite(v: Row, events: seq<Event>)
    requires FiniteSource(v) && FiniteVods(events)
    ensures FiniteSource(Run(v, events))
    decreases |events|
  {
    if events != [] {
      assert events[0] in events && forall e | e in events[1..] :: e in events;
      RunKeepsFinite(Step(v, events[0]), events[1..]);
    }
  }

  /**
   * However a live capture ends, is parked, re-checked and verified: if it becomes HEALTHY,
   * the recording's probed length is within max(1 s, 2%) of the VOD's, in both directions.
   */
  lemma HealthyCapturesAreComplete(v: Row, events: seq<Event>)
    requires v.copy == Downloading && FiniteVods(events) && Run(v, events).copy == Healthy
    ensures var r := Run(v, events);
      r.measured.Some? && UsableDuration(r.source) && Within(r.measured.value, r.source.value.value)
  {
    RunKeepsMeasured(v, events);
    RunKeepsFinite(v, events);
  }

  // --------------------------------------------------------------- the re-check loop --

  /** The sweep picks a parked row only once its cursor is due. */
  ghost predicate DueChecks(v: Row, checks: seq<Event>)
    decreases |checks|
  {
    checks == [] ||
    ((checks[0].Check? || checks[0].Fault?) &&
     (v.copy == AwaitingVerify ==> v.nextCheck.Some? && v.nextCheck.value <= checks[0].at) &&
     DueChecks(Step(v, checks[0]), checks[1..]))
  }

  /** The check leaves the row parked with a later cursor. */
  predicate Defers(v: Row, c: Event) {
    v.copy == AwaitingVerify &&
    (c.Fault? || (c.Check? && RecheckOutcome(v, c.session, c.captured, c.vod, c.status, c.at) == Deferred))
  }

  function Deferrals(v: Row, checks: seq<Event>): nat
    decreases |checks|
  {
    if checks == [] then 0
    else (if Defers(v, checks[0]) then 1 else 0) + Deferrals(Step(v, checks[0]), checks[1..])
  }

  /** The re-check threw, and the deadline had passed. */
  predicate LateFault(v: Row, c: Event) {
    v.copy == AwaitingVerify && c.Fault? && v.deadline.Some? && c.at >= v.deadline.value
  }

  function LateFaults(v: Row, checks: seq<Event>): nat
    decreases |checks|
  {
    if checks == [] then 0
    else (if LateFault(v, checks[0]) then 1 else 0) + LateFaults(Step(v, checks[0]), checks[1..])
  }

  const MAX_DEFERRALS := 40

  /** The earliest time after parking at which the k-th re-check can come: 9 + 10 + 21 of them fit. */
  function EarliestCheck(k: nat): int {
    if k < 9 then 3 * MINUTE * (k + 1)
    else if k < 19 then (30 + 15 * (k - 9)) * MINUTE
    else (180 + 60 * (k - 19)) * MINUTE
  }

  ghost predicate Parked(v: Row, park: int, k: nat) {
    v.copy == AwaitingVerify && v.deadline == Some(park + COMPLETENESS_DEADLINE_MS) &&
    v.nextCheck.Some? && v.nextCheck.value >= park + EarliestCheck(k)
  }

  lemma {:induction false} DeferralsFit(v: Row, park: int, k: nat, checks: seq<Event>)
    requires v.copy != AwaitingVerify || Parked(v, park, k)
    requires v.copy != Downloading && DueChecks(v, checks) && k <= MAX_DEFERRALS
    ensures v.copy == AwaitingVerify ==> Deferrals(v, checks) <= MAX_DEFERRALS - k + LateFaults(v, checks)
    ensures v.copy != AwaitingVerify ==> Deferrals(v, checks) == 0 && Run(v, checks) == v
    ensures v.copy == AwaitingVerify ==>
      (Run(v, checks).copy == AwaitingVerify || Run(v, checks).copy == Verifying || Run(v, checks).copy == PartialKept)
    decreases |checks|
  {
    if checks != [] {
      var c := checks[0];
      var w := Step(v, c);
      if Defers(v, c) && !LateFault(v, c) {
        assert c.at >= park + EarliestCheck(k);
        assert k < MAX_DEFERRALS;
        DeferralsFit(w, park, k + 1, checks[1..]);
      } else {
        DeferralsFit(w, park, k, checks[1..]);
      }
    }
  }

  /**
   * A parked capture is deferred at most 40 times, faults of the re-check before the
   * deadline included, plus once for every re-check that throws after the deadline, and it
   * leaves only to VERIFYING or PARTIAL_KEPT.
   */
  lemma ParkingIsBounded(v: Row, captured: Option<Num>, vod: Option<Num>, status: Option<LiveStatus>, now: int,
          checks: seq<Event>)
    requires v.copy == Downloading && Finalized(v, captured, vod, status, now).copy == AwaitingVerify
    requires DueChecks(Finalized(v, captured, vod, status, now), checks)
    ensures var parked := Finalized(v, captured, vod, status, now);
      && Deferrals(parked, checks) <= MAX_DEFERRALS + LateFaults(parked, checks)
      && (var end := Run(parked, checks).copy; end == AwaitingVerify || end == Verifying || end == PartialKept)
  {
    DeferralsFit(Finalized(v, captured, vod, status, now), now, 0, checks);
  }

  /** n re-checks that all throw, each as soon as the cursor allows. */
  function PromptFaults(v: Row, n: nat): seq<Event>
    decreases n
  {
    if n == 0 || v.nextCheck.None? then []
    else
      var c := Fault(v.nextCheck.value);
      [c] + PromptFaults(Step(v, c), n - 1)
  }

  /** A re-check that keeps throwing after the deadline is deferred for ever. */
  lemma {:induction false} FaultsDeferForever(v: Row, n: nat)
    requires v.copy == AwaitingVerify && v.deadline.Some? && v.nextCheck.Some? && v.nextCheck.value >= v.deadline.value
    ensures DueChecks(v, PromptFaults(v, n)) && Deferrals(v, PromptFaults(v, n)) == n
    ensures Run(v, PromptFaults(v, n)).copy == AwaitingVerify
    decreases n
  {
    if n > 0 {
      var c := Fault(v.nextCheck.value);
      assert PromptFaults(v, n)[1..] == PromptFaults(Step(v, c), n - 1);
      FaultsDeferForever(Step(v, c), n - 1);
    }
  }

  /** An unmeasurable check at the earliest moment the cursor allows. */
  function PromptChecks(v: Row, n: nat): seq<Event>
    decreases n
  {
    if n == 0 || v.nextCheck.None? then []
    else
      var c := Check(true, None, None, None, v.nextCheck.value);
      [c] + PromptChecks(Step(v, c), n - 1)
  }

  /** The bound is reached: 40 prompt, unmeasurable checks are all deferred. */
  lemma {:induction false} FortyDeferralsHappen(v: Row, park: int, k: nat)
    requires Parked(v, park, k) && v.nextCheck == Some(park + EarliestCheck(k)) && k <= MAX_DEFERRALS
    ensures Deferrals(v, PromptChecks(v, MAX_DEFERRALS - k)) == MAX_DEFERRALS - k
    ensures DueChecks(v, PromptChecks(v, MAX_DEFERRALS - k))
    decreases MAX_DEFERRALS - k
  {
    if k < MAX_DEFERRALS {
      var c := Check(true, None, None, None, v.nextCheck.value);
      var w := Step(v, c);
      assert PromptChecks(v, MAX_DEFERRALS - k)[1..] == PromptChecks(w, MAX_DEFERRALS - k - 1);
      FortyDeferralsHappen(w, park, k + 1);
    }
  }
}
