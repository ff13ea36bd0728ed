/**
 * Observation folds: the source re-check gate, the session-health streak and the
 * byte-stall watchdog. Each is a small step whose promise is about whole histories.
 */
module Folds {
  import opened Domain

  function Capped(count: nat, cap: nat): nat {
    if count < cap then count else cap
  }

  // ------------------------------------------------------------ source re-check --

  datatype SourceState =
    | UNKNOWN | AVAILABLE | DELETED | PRIVATE | GEO_BLOCKED | MEMBERS_ONLY | AGE_GATED | TRANSIENT_ERROR
    | RATE_LIMITED

  predicate Gone(s: SourceState) {
    s == DELETED || s == PRIVATE
  }

  /** One re-check: what was seen, and the copy state at that moment. */
  datatype Sighting = Sighting(observed: SourceState, copy: CopyState)

  datatype Gate = Gate(source: SourceState, streak: nat)

  datatype Decision = Decision(
    next: Gate,
    event: Option<(SourceState, SourceState)>,
    becameRescued: bool,
    becameGone: bool)

  function ReconcileSourceObservation(prior: Gate, seen: Sighting, threshold: nat): Decision {
    var observed := seen.observed;
    if observed == AVAILABLE then
      Decision(Gate(AVAILABLE, 0),
               if prior.source == AVAILABLE then None else Some((prior.source, AVAILABLE)), false, false)
    else if Gone(observed) then
      var streak := prior.streak + 1;
      if streak < threshold then Decision(prior.(streak := streak), None, false, false)
      else
        var goneEdge := !Gone(prior.source);
        Decision(Gate(observed, Capped(streak, threshold)),
                 if prior.source == observed then None else Some((prior.source, observed)),
                 goneEdge && seen.copy == Healthy,
                 goneEdge && seen.copy != Healthy)
    else Decision(prior, None, false, false)
  }

  /** The gate after a history, oldest sighting first. */
  function GateAfter(h: seq<Sighting>, threshold: nat): Gate {
    if h == [] then Gate(UNKNOWN, 0)
    else ReconcileSourceObservation(GateAfter(h[..|h| - 1], threshold), h[|h| - 1], threshold).next
  }

  function LastDecision(h: seq<Sighting>, threshold: nat): Decision
    requires h != []
  {
    ReconcileSourceObservation(GateAfter(h[..|h| - 1], threshold), h[|h| - 1], threshold)
  }

  /** Sightings of a gone original since it was last seen available. */
  function GoneSince(h: seq<Sighting>): nat {
    if h == [] || h[|h| - 1].observed == AVAILABLE then 0
    else GoneSince(h[..|h| - 1]) + if Gone(h[|h| - 1].observed) then 1 else 0
  }

  /** Alerts, of either kind, since the original was last seen available. */
  function AlertsSince(h: seq<Sighting>, threshold: nat): nat {
    if h == [] || h[|h| - 1].observed == AVAILABLE then 0
    else
      var d := LastDecision(h, threshold);
      AlertsSince(h[..|h| - 1], threshold) + (if d.becameRescued then 1 else 0) + (if d.becameGone then 1 else 0)
  }

  /**
   * Over every history: the original counts as gone exactly when it was seen gone at least
   * threshold times since it was last available, the streak is that count capped at the
   * threshold, and each such episode raises exactly one alert.
   */
  lemma {:induction false} GateLaw(h: seq<Sighting>, threshold: nat)
    requires threshold >= 1
    ensures GateAfter(h, threshold).streak == Capped(GoneSince(h), threshold)
    ensures Gone(GateAfter(h, threshold).source) <==> GoneSince(h) >= threshold
    ensures AlertsSince(h, threshold) == if GoneSince(h) >= threshold then 1 else 0
  {
    if h != [] { GateLaw(h[..|h| - 1], threshold); }
  }

  /** The alert says "rescued" exactly when the copy was healthy at the confirming sighting. */
  lemma AlertKind(h: seq<Sighting>, threshold: nat)
    requires h != [] && threshold >= 1
    ensures var d, n := LastDecision(h, threshold), GoneSince(h[..|h| - 1]);
      && (d.becameRescued || d.becameGone <==> Gone(h[|h| - 1].observed) && n + 1 == threshold)
      && (d.becameRescued ==> h[|h| - 1].copy == Healthy) && (d.becameGone ==> h[|h| - 1].copy != Healthy)
  {
    GateLaw(h[..|h| - 1], threshold);
  }

  predicate Inconclusive(s: SourceState) {
    s != AVAILABLE && !Gone(s)
  }

  function Conclusive(h: seq<Sighting>): seq<Sighting> {
    if h == [] then []
    else Conclusive(h[..|h| - 1]) + if Inconclusive(h[|h| - 1].observed) then [] else [h[|h| - 1]]
  }

  /** Inconclusive sightings might as well not have happened. */
  lemma {:induction false} InconclusiveIsNoise(h: seq<Sighting>, threshold: nat)
    ensures GateAfter(Conclusive(h), threshold) == GateAfter(h, threshold)
  {
    if h != [] {
      var init := h[..|h| - 1];
      InconclusiveIsNoise(init, threshold);
      if Inconclusive(h[|h| - 1].observed) {
        assert Conclusive(h) == Conclusive(init);
      } else {
        assert Conclusive(h)[..|Conclusive(h)| - 1] == Conclusive(init);
      }
    }
  }

  // -------------------------------------------------------------- session health --

  datatype SessionStatus = UNVERIFIED | VERIFIED | EXPIRED

  datatype AuthObservation = Success(at: int) | AuthFailure | AuthInconclusive

  datatype Health = Health(status: SessionStatus, lastVerifiedAt: Option<int>, failures: nat)

  datatype AuthOutcome = AuthOutcome(health: Health, emitExpired: bool)

  function AdvanceAuth(prior: Health, o: AuthObservation, threshold: nat): AuthOutcome {
    match o
    case Success(at) => AuthOutcome(Health(VERIFIED, Some(at), 0), false)
    case AuthInconclusive => AuthOutcome(prior, false)
    case AuthFailure =>
      var failures := Capped(prior.failures + 1, threshold);
      AuthOutcome(prior.(status := if failures >= threshold then EXPIRED else prior.status, failures := failures),
                  failures >= threshold && prior.status != EXPIRED)
  }

  const NEW_SESSION := Health(UNVERIFIED, None, 0)

  function HealthAfter(h: seq<AuthObservation>, threshold: nat): Health {
    if h == [] then NEW_SESSION else AdvanceAuth(HealthAfter(h[..|h| - 1], threshold), h[|h| - 1], threshold).health
  }

  function FailuresSince(h: seq<AuthObservation>): nat {
    if h == [] || h[|h| - 1].Success? then 0
    else FailuresSince(h[..|h| - 1]) + if h[|h| - 1].AuthFailure? then 1 else 0
  }

  function ExpiriesSince(h: seq<AuthObservation>, threshold: nat): nat {
    if h == [] || h[|h| - 1].Success? then 0
    else
      ExpiriesSince(h[..|h| - 1], threshold) +
      if AdvanceAuth(HealthAfter(h[..|h| - 1], threshold), h[|h| - 1], threshold).emitExpired then 1 else 0
  }

  function LastSuccess(h: seq<AuthObservation>): Option<int> {
    if h == [] then None else if h[|h| - 1].Success? then Some(h[|h| - 1].at) else LastSuccess(h[..|h| - 1])
  }

  /**
   * The session is expired exactly when it failed at least threshold times since its last
   * success; the alert fires once per such episode; the verification time is the last
   * success's, whatever failed since.
   */
  lemma {:induction false} AuthLaw(h: seq<AuthObservation>, threshold: nat)
    requires threshold >= 1
    ensures HealthAfter(h, threshold).failures == Capped(FailuresSince(h), threshold)
    ensures HealthAfter(h, threshold).status == EXPIRED <==> FailuresSince(h) >= threshold
    ensures ExpiriesSince(h, threshold) == if FailuresSince(h) >= threshold then 1 else 0
    ensures HealthAfter(h, threshold).lastVerifiedAt == LastSuccess(h)
  {
    if h != [] { AuthLaw(h[..|h| - 1], threshold); }
  }

  // -------------------------------------------------------------------- byte stall --

  datatype Sample = Sample(bytes: nat, at: int)

  datatype ByteProgress = ByteProgress(bytes: nat, lastProgressAt: int, stalled: bool)

  function AdvanceByteProgress(prev: ByteProgress, s: Sample, stallAfter: int): ByteProgress {
    if s.bytes > prev.bytes then ByteProgress(s.bytes, s.at, false)
    else prev.(stalled := s.at - prev.lastProgressAt > stallAfter)
  }

  function ProgressAfter(start: Sample, h: seq<Sample>, stallAfter: int): ByteProgress {
    if h == [] then ByteProgress(start.bytes, start.at, false)
    else AdvanceByteProgress(ProgressAfter(start, h[..|h| - 1], stallAfter), h[|h| - 1], stallAfter)
  }

  /** Sample k is larger than the first count and than every sample before it. */
  predicate Record(start: Sample, h: seq<Sample>, k: nat)
    requires k < |h|
  {
    h[k].bytes > start.bytes && forall j | 0 <= j < k :: h[k].bytes > h[j].bytes
  }

  /** The latest record at or before n samples, None while nothing exceeded the start. */
  function LastRecord(start: Sample, h: seq<Sample>): Option<nat> {
    if h == [] then None
    else if Record(start, h, |h| - 1) then Some(|h| - 1)
    else LastRecord(start, h[..|h| - 1])
  }

  /**
   * bytes is the running maximum, and a capture is stalled exactly when its last new
   * maximum is older than the window. Samples that shrink, as after a reclaim, never count
   * as progress.
   */
  lemma {:induction false} StallLaw(start: Sample, h: seq<Sample>, stallAfter: int)
    requires stallAfter >= 0
    ensures var p, r := ProgressAfter(start, h, stallAfter), LastRecord(start, h);
      && p.bytes >= start.bytes && (forall k | 0 <= k < |h| :: h[k].bytes <= p.bytes)
      && (r.None? ==> p.bytes == start.bytes && p.lastProgressAt == start.at)
      && (r.Some? ==>
            r.value < |h| && Record(start, h, r.value) && p.bytes == h[r.value].bytes &&
            p.lastProgressAt == h[r.value].at)
      && (h != [] ==> (p.stalled <==> h[|h| - 1].at - p.lastProgressAt > stallAfter && !Record(start, h, |h| - 1)))
  {
    if h != [] {
      var init := h[..|h| - 1];
      StallLaw(start, init, stallAfter);
      var r := LastRecord(start, init);
      if r.Some? { assert h[r.value] == init[r.value]; }
    }
  }
}
