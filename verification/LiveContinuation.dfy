/**
 * Recorded bytes over any number of attempts: stalls, drains, crashes, failed renames,
 * reclaims and publications.
 */
module LiveContinuation {
  import opened Domain
  import opened VideoStatus
  import opened LiveStaging

  /**
   * The staging directory, the published recording's size (0: none) and the video's copy
   * state. recording: an attempt's child runs. stuck: files of an earlier attempt that the
   * running one will overwrite. best is history: the largest recording ever made.
   */
  datatype History = History(dir: Dir, vault: nat, copy: CopyState, recording: bool, stuck: set<Name>, best: nat)

  /** A video is about to be captured for the first time. */
  const FRESH := History(map[], 0, Queued, false, {}, 0)

  datatype Event =
    | StartAttempt(listing: seq<Name>, now: nat, stuck: set<Name>)   // preservePriorAttempt, then spawn
    | Record(file: Name, size: nat)                                  // yt-dlp writes to the final name
    | Overwrite(file: Name, size: nat)                               // ... where a rename had failed
    | WriteSidecar(file: Name, size: nat)
    | ReclaimTick(listing: seq<Name>, locked: set<Name>)
    | Stop                                                           // exit, stall, drain, cancel or crash
    | Publish(media: Option<Name>, wiped: bool)                      // wiped: the process lived to wipe staging
    | Hop(to: CopyState)                                             // any writer's hop of the copy state

  ghost predicate Possible(s: History, rules: Rules, e: Event) {
    match e
    case StartAttempt(listing, now, _) =>
      !s.recording && (s.copy == Queued || s.copy == Downloading) &&
      IsListing(s.dir, listing) && forall n | n in s.dir :: n.epoch != Some(now)
    case Record(n, size) => s.recording && MediaOf(rules, n, None) && n !in s.stuck && SizeIn(s.dir, n) <= size
    case Overwrite(n, _) => s.recording && MediaOf(rules, n, None) && n in s.stuck && n in s.dir
    case WriteSidecar(n, _) => s.recording && Mine(rules, n) && IsSidecar(rules, n) && n.epoch.None?
    case ReclaimTick(listing, _) => s.recording && IsListing(s.dir, listing)
    case Stop => s.recording
    case Publish(media, _) => !s.recording && IsLargest(s.dir, rules, media)
    case Hop(to) => Allowed(s.copy, to)
  }

  function Max(a: nat, b: nat): nat {
    if a < b then b else a
  }

  function Next(s: History, rules: Rules, e: Event): History {
    match e
    case StartAttempt(listing, now, stuck) =>
      s.(dir := Renamed(s.dir, listing, rules, now, stuck), copy := Downloading, recording := true,
         stuck := set n | n in stuck && n in s.dir)
    case Record(n, size) => s.(dir := s.dir[n := size], best := Max(s.best, size))
    case Overwrite(n, size) => s.(dir := s.dir[n := size], best := Max(s.best, size), stuck := s.stuck - {n})
    case WriteSidecar(n, size) => s.(dir := s.dir[n := size])
    case ReclaimTick(listing, locked) => s.(dir := Reclaimed(s.dir, listing, rules, locked))
    case Stop => s.(recording := false)
    case Publish(media, wiped) =>
      s.(vault := if media.Some? then SizeIn(s.dir, media.value) else s.vault,
         dir := if wiped then map[] else if media.Some? then s.dir - {media.value} else s.dir)
    case Hop(to) => s.(copy := to)
  }

  ghost predicate IsHistory(s: History, rules: Rules, events: seq<Event>)
    decreases |events|
  {
    events == [] || (Possible(s, rules, events[0]) && IsHistory(Next(s, rules, events[0]), rules, events[1..]))
  }

  function After(s: History, rules: Rules, events: seq<Event>): History
    decreases |events|
  {
    if events == [] then s else After(Next(s, rules, events[0]), rules, events[1..])
  }

  // ------------------------------------------------------------- the largest recording --

  /** Nothing is larger than the best. */
  ghost predicate Bounded(s: History, rules: Rules) {
    s.vault <= s.best && forall n | n in s.dir && Media(rules, n) :: s.dir[n] <= s.best
  }

  /** The best recording ever made is published or still in staging. */
  ghost predicate Held(s: History, rules: Rules) {
    s.vault == s.best || exists n | n in s.dir :: Media(rules, n) && s.dir[n] == s.best
  }

  /** A publication that overwrites a larger one. */
  predicate Shrinks(s: History, e: Event) {
    e.Publish? && e.media.Some? && SizeIn(s.dir, e.media.value) < s.vault
  }

  /** The tick removes every file as large as the best. */
  ghost predicate ReclaimsBest(s: History, rules: Rules, listing: seq<Name>, locked: set<Name>) {
    forall n | n in s.dir && Media(rules, n) && s.dir[n] == s.best ::
      n !in locked && n.epoch.Some? && Superseded(s.dir, listing, rules, n.epoch.value)
  }

  /** The event drops the last file as large as the best. */
  ghost predicate Loses(s: History, rules: Rules, e: Event) {
    match e
    case Overwrite(n, size) =>
      s.vault < s.best && size < s.best && forall m | m in s.dir && Media(rules, m) && m != n :: s.dir[m] < s.best
    case ReclaimTick(listing, locked) => s.vault < s.best && ReclaimsBest(s, rules, listing, locked)
    case Publish(_, _) => Shrinks(s, e)
    case _ => false
  }

  lemma StartHolds(s: History, rules: Rules, e: Event)
    requires Bounded(s, rules) && Held(s, rules) && Possible(s, rules, e) && e.StartAttempt?
    ensures Bounded(Next(s, rules, e), rules) && Held(Next(s, rules, e), rules)
  {
    var dir' := Next(s, rules, e).dir;
    RenamedIsAside(s.dir, e.listing, rules, e.now, e.stuck);
    assert forall m | m in dir' && Media(rules, m) :: Media(rules, Before(m, e.now));
    if s.vault != s.best {
      var n :| n in s.dir && Media(rules, n) && s.dir[n] == s.best;
      var m := if Moves(rules, n, e.stuck) then Aside(n, e.now) else n;
      assert m in dir' && Before(m, e.now) == n;
    }
  }

  lemma RecordHolds(s: History, rules: Rules, e: Event)
    requires Bounded(s, rules) && Held(s, rules) && Possible(s, rules, e) && (e.Record? || e.WriteSidecar?)
    ensures Bounded(Next(s, rules, e), rules) && Held(Next(s, rules, e), rules)
  {
    var t := Next(s, rules, e);
    if e.Record? && s.best <= e.size {
      assert e.file in t.dir && t.dir[e.file] == t.best;
    } else if s.vault != s.best {
      var n :| n in s.dir && Media(rules, n) && s.dir[n] == s.best;
      assert n in t.dir && t.dir[n] == t.best;
    }
  }

  lemma OverwriteHoldsExactly(s: History, rules: Rules, e: Event)
    requires Bounded(s, rules) && Held(s, rules) && Possible(s, rules, e) && e.Overwrite?
    ensures Bounded(Next(s, rules, e), rules) && (Held(Next(s, rules, e), rules) <==> !Loses(s, rules, e))
  {
    var t := Next(s, rules, e);
    assert e.file in t.dir && t.dir[e.file] == e.size;
    if s.vault < s.best && e.size < s.best {
      if m :| m in s.dir && Media(rules, m) && m != e.file && s.dir[m] == s.best {
        assert m in t.dir && t.dir[m] == t.best;
      }
    }
  }

  lemma TickHoldsExactly(s: History, rules: Rules, e: Event)
    requires Bounded(s, rules) && Held(s, rules) && Possible(s, rules, e) && e.ReclaimTick?
    ensures Bounded(Next(s, rules, e), rules) && (Held(Next(s, rules, e), rules) <==> !Loses(s, rules, e))
  {
    var t := Next(s, rules, e);
    if s.vault < s.best && !ReclaimsBest(s, rules, e.listing, e.locked) {
      var n :| n in s.dir && Media(rules, n) && s.dir[n] == s.best &&
               !(n !in e.locked && n.epoch.Some? && Superseded(s.dir, e.listing, rules, n.epoch.value));
      assert n in t.dir && t.dir[n] == t.best;
    }
  }

  lemma PublishHoldsExactly(s: History, rules: Rules, e: Event)
    requires Bounded(s, rules) && Held(s, rules) && Possible(s, rules, e) && e.Publish?
    ensures Bounded(Next(s, rules, e), rules) && (Held(Next(s, rules, e), rules) <==> !Loses(s, rules, e))
  {}

  lemma EventHoldsExactly(s: History, rules: Rules, e: Event)
    requires Bounded(s, rules) && Held(s, rules) && Possible(s, rules, e)
    ensures Bounded(Next(s, rules, e), rules) && (Held(Next(s, rules, e), rules) <==> !Loses(s, rules, e))
  {
    match e
    case StartAttempt(_, _, _) => StartHolds(s, rules, e);
    case Record(_, _) => RecordHolds(s, rules, e);
    case WriteSidecar(_, _) => RecordHolds(s, rules, e);
    case Overwrite(_, _) => OverwriteHoldsExactly(s, rules, e);
    case ReclaimTick(_, _) => TickHoldsExactly(s, rules, e);
    case Publish(_, _) => PublishHoldsExactly(s, rules, e);
    case Stop =>
    case Hop(_) =>
  }

  /** In every state of the history the best recording so far is still there. */
  ghost predicate AlwaysHeld(s: History, rules: Rules, events: seq<Event>)
    decreases |events|
  {
    Held(s, rules) && (events == [] || AlwaysHeld(Next(s, rules, events[0]), rules, events[1..]))
  }

  ghost predicate NeverLoses(s: History, rules: Rules, events: seq<Event>)
    decreases |events|
  {
    events == [] || (!Loses(s, rules, events[0]) && NeverLoses(Next(s, rules, events[0]), rules, events[1..]))
  }

  lemma {:induction false} HeldExactly(s: History, rules: Rules, events: seq<Event>)
    requires Bounded(s, rules) && Held(s, rules) && IsHistory(s, rules, events)
    ensures AlwaysHeld(s, rules, events) <==> NeverLoses(s, rules, events)
    decreases |events|
  {
    if events != [] {
      var t := Next(s, rules, events[0]);
      EventHoldsExactly(s, rules, events[0]);
      if Held(t, rules) { HeldExactly(t, rules, events[1..]); } else { assert !AlwaysHeld(t, rules, events[1..]); }
    }
  }

  /**
   * Over any history, recordings split over files, failing renames and half-done
   * publications included: the largest recording ever made survives if and only if no event
   * drops the last file of that size: a fresh run over a file that could not be renamed, a
   * reclaim by an attempt that only caught up in total, or a smaller publication.
   */
  lemma LargestSurvivesExactly(rules: Rules, events: seq<Event>)
    requires IsHistory(FRESH, rules, events)
    ensures AlwaysHeld(FRESH, rules, events) <==> NeverLoses(FRESH, rules, events)
  {
    HeldExactly(FRESH, rules, events);
  }

  // --------------------------------------------------------------- one file per attempt --

  /** Renames succeed and an attempt records to one file. */
  ghost predicate Plain(s: History, rules: Rules, e: Event) {
    && (e.StartAttempt? ==> forall n | n in e.stuck :: n !in s.dir)
    && (e.Record? ==> forall n | n in s.dir && MediaOf(rules, n, None) :: n == e.file)
    && !e.Overwrite?
  }

  ghost predicate IsPlain(s: History, rules: Rules, events: seq<Event>)
    decreases |events|
  {
    events == [] || (Plain(s, rules, events[0]) && IsPlain(Next(s, rules, events[0]), rules, events[1..]))
  }

  ghost predicate OneEach(dir: Dir, rules: Rules) {
    forall n, m | n in dir && m in dir && Media(rules, n) && Media(rules, m) && n.epoch == m.epoch :: n == m
  }

  lemma AsideKeepsOneEach(dir: Dir, dir': Dir, rules: Rules, now: nat, stuck: set<Name>)
    requires SetAside(dir, dir', rules, now, stuck) && OneEach(dir, rules)
    ensures OneEach(dir', rules)
  {
    forall n, m | n in dir' && m in dir' && Media(rules, n) && Media(rules, m) && n.epoch == m.epoch ensures n == m {
      var x, y := Before(n, now), Before(m, now);
      assert x in dir && y in dir && Media(rules, x) && Media(rules, y) && x.epoch == y.epoch;
    }
  }

  lemma PlainKeepsOneEach(s: History, rules: Rules, e: Event)
    requires OneEach(s.dir, rules) && Possible(s, rules, e) && Plain(s, rules, e)
    ensures OneEach(Next(s, rules, e).dir, rules)
  {
    if e.StartAttempt? {
      RenamedIsAside(s.dir, e.listing, rules, e.now, e.stuck);
      AsideKeepsOneEach(s.dir, Next(s, rules, e).dir, rules, e.now, e.stuck);
    }
  }

  /** A file that a tick deletes is no larger than the one the current attempt keeps. */
  lemma PlainTickKeepsBest(s: History, rules: Rules, listing: seq<Name>, locked: set<Name>)
    requires Bounded(s, rules) && Held(s, rules) && OneEach(s.dir, rules) && IsListing(s.dir, listing)
    ensures !Loses(s, rules, ReclaimTick(listing, locked))
  {
    if s.vault < s.best && ReclaimsBest(s, rules, listing, locked) {
      var n :| n in s.dir && Media(rules, n) && s.dir[n] == s.best;
      GenBytesBounds(s.dir, listing, rules, n);
      if forall m | m in listing :: !MediaOf(rules, m, None) {
        NoMediaNoBytes(s.dir, listing, rules, None);
        assert false;
      }
      var m :| m in listing && MediaOf(rules, m, None);
      SoleFileIsAll(s.dir, listing, rules, m);
    }
  }

  ghost predicate NeverShrinks(s: History, rules: Rules, events: seq<Event>)
    decreases |events|
  {
    events == [] || (!Shrinks(s, events[0]) && NeverShrinks(Next(s, rules, events[0]), rules, events[1..]))
  }

  lemma {:induction false} PlainLosesByShrinking(s: History, rules: Rules, events: seq<Event>)
    requires Bounded(s, rules) && Held(s, rules) && OneEach(s.dir, rules)
    requires IsHistory(s, rules, events) && IsPlain(s, rules, events)
    ensures NeverLoses(s, rules, events) <==> NeverShrinks(s, rules, events)
    decreases |events|
  {
    if events != [] {
      var e := events[0];
      EventHoldsExactly(s, rules, e);
      PlainKeepsOneEach(s, rules, e);
      if e.ReclaimTick? { PlainTickKeepsBest(s, rules, e.listing, e.locked); }
      if !Loses(s, rules, e) { PlainLosesByShrinking(Next(s, rules, e), rules, events[1..]); }
    }
  }

  /** A publication that is not smaller than the one it replaces publishes the best recording. */
  lemma PublicationIsBest(s: History, rules: Rules, e: Event)
    requires Bounded(s, rules) && Held(s, rules) && Possible(s, rules, e) && e.Publish? && !Shrinks(s, e)
    ensures Next(s, rules, e).vault == s.best
  {}

  /**
   * Over any history of attempts, stalls, drains, crashes, reclaims and publications with
   * one file per attempt and renames that succeed: the largest recording ever made survives
   * if and only if no publication is smaller than the one it overwrites; and then every
   * publication publishes it.
   */
  lemma NothingRecordedIsLost(rules: Rules, events: seq<Event>)
    requires IsHistory(FRESH, rules, events) && IsPlain(FRESH, rules, events)
    ensures AlwaysHeld(FRESH, rules, events) <==> NeverShrinks(FRESH, rules, events)
  {
    HeldExactly(FRESH, rules, events);
    PlainLosesByShrinking(FRESH, rules, events);
  }

  // --------------------------------------------------------- when an overwrite is safe --

  /** The states in which the probe starts no capture. */
  predicate Skipped(copy: CopyState) {
    copy == Downloading || copy == Verifying || copy == Healthy || copy == PartialKept || copy == AwaitingVerify
  }

  /** The event leaves a published recording open to another capture, or cuts its publication short. */
  predicate Exposes(s: History, e: Event) {
    match e
    case StartAttempt(_, _, _) => s.vault > 0 && s.copy == Downloading     // between a publication and its hop
    case Hop(to) => s.vault > 0 && !Skipped(to)
    case Publish(media, wiped) => !wiped || (media.Some? && !Skipped(s.copy))
    case _ => false
  }

  ghost predicate NeverExposes(s: History, rules: Rules, events: seq<Event>)
    decreases |events|
  {
    events == [] || (!Exposes(s, events[0]) && NeverExposes(Next(s, rules, events[0]), rules, events[1..]))
  }

  /** What is published is out of the probe's reach, and staging is empty. */
  ghost predicate Shut(s: History) {
    s.vault > 0 ==> Skipped(s.copy) && !s.recording && s.dir == map[]
  }

  lemma {:induction false} ShutStaysShut(s: History, rules: Rules, events: seq<Event>)
    requires Shut(s) && IsHistory(s, rules, events) && NeverExposes(s, rules, events)
    ensures NeverShrinks(s, rules, events)
    decreases |events|
  {
    if events != [] { ShutStaysShut(Next(s, rules, events[0]), rules, events[1..]); }
  }

  /**
   * When the overwrite of a publication is safe by construction: if every publication runs
   * to its end under a state the probe skips, no attempt starts before the copy state has
   * moved on from DOWNLOADING, and nobody then moves it to a state that can be captured
   * again, no publication is smaller than the one it overwrites.
   */
  lemma SkipStatesGuardPublications(rules: Rules, events: seq<Event>)
    requires IsHistory(FRESH, rules, events) && NeverExposes(FRESH, rules, events)
    ensures NeverShrinks(FRESH, rules, events)
  {
    ShutStaysShut(FRESH, rules, events);
  }

  // -------------------------------------------------------------------- lossy histories --

  lemma Then(s: History, rules: Rules, e: Event, rest: seq<Event>)
    requires Possible(s, rules, e) && IsHistory(Next(s, rules, e), rules, rest)
    ensures IsHistory(s, rules, [e] + rest)
    ensures After(s, rules, [e] + rest) == After(Next(s, rules, e), rules, rest)
    ensures Plain(s, rules, e) && IsPlain(Next(s, rules, e), rules, rest) ==> IsPlain(s, rules, [e] + rest)
  {
    assert ([e] + rest)[1..] == rest;
  }

  lemma {:induction false} Joined(s: History, rules: Rules, a: seq<Event>, b: seq<Event>)
    requires IsHistory(s, rules, a) && IsHistory(After(s, rules, a), rules, b)
    ensures IsHistory(s, rules, a + b) && After(s, rules, a + b) == After(After(s, rules, a), rules, b)
    ensures IsPlain(s, rules, a) && IsPlain(After(s, rules, a), rules, b) ==> IsPlain(s, rules, a + b)
    decreases |a|
  {
    if a == [] {
      assert a + b == b;
    } else {
      assert (a + b)[1..] == a[1..] + b;
      Joined(Next(s, rules, a[0]), rules, a[1..], b);
    }
  }

  /** The first attempt records so many bytes to file n. */
  function FirstAttempt(n: Name, size: nat): seq<Event> {
    [StartAttempt([], 1, {}), Record(n, size), Stop]
  }

  function Recorded(n: Name, size: nat): History {
    History(map[n := size], 0, Downloading, false, {}, size)
  }

  lemma FirstIsRecorded(rules: Rules, n: Name, size: nat)
    requires n.epoch.None? && Media(rules, n)
    ensures IsHistory(FRESH, rules, FirstAttempt(n, size)) && IsPlain(FRESH, rules, FirstAttempt(n, size))
    ensures After(FRESH, rules, FirstAttempt(n, size)) == Recorded(n, size)
  {
    var e := FirstAttempt(n, size);
    var s1 := Next(FRESH, rules, e[0]);
    var s2 := Next(s1, rules, e[1]);
    var s3 := Next(s2, rules, e[2]);
    assert s1.stuck == {} && s2.dir == map[n := size] && s3 == Recorded(n, size);
    assert IsHistory(s3, rules, []) && IsPlain(s3, rules, []) && After(s3, rules, []) == s3;
    Then(s2, rules, e[2], []);
    Then(s1, rules, e[1], [e[2]] + []);
    Then(FRESH, rules, e[0], [e[1]] + ([e[2]] + []));
    assert [e[0]] + ([e[1]] + ([e[2]] + [])) == e;
  }

  const Published := History(map[], 100, Downloading, false, {}, 100)

  /** 100 bytes are published; the worker dies before the hop. */
  lemma FirstIsPublished(rules: Rules, n: Name)
    requires n.epoch.None? && Media(rules, n)
    ensures var publish := [Publish(Some(n), true)];
      IsHistory(Recorded(n, 100), rules, publish) && IsPlain(Recorded(n, 100), rules, publish) &&
      After(Recorded(n, 100), rules, publish) == Published
  {
    assert IsHistory(Published, rules, []) && IsPlain(Published, rules, []) && After(Published, rules, []) == Published;
    Then(Recorded(n, 100), rules, Publish(Some(n), true), []);
    assert [Publish(Some(n), true)] + [] == [Publish(Some(n), true)];
  }

  /** The stall verdict hands the video back, a new capture is canceled at 40 bytes and published. */
  function SecondCapture(n: Name): seq<Event> {
    [Hop(Queued), StartAttempt([], 2, {}), Record(n, 40), Stop, Publish(Some(n), true)]
  }

  const Replaced := History(map[], 40, Downloading, false, {}, 100)

  lemma SecondShrinks(rules: Rules, n: Name)
    requires n.epoch.None? && Media(rules, n)
    ensures IsHistory(Published, rules, SecondCapture(n)) && IsPlain(Published, rules, SecondCapture(n))
    ensures After(Published, rules, SecondCapture(n)) == Replaced
  {
    var e := SecondCapture(n);
    var s1 := Next(Published, rules, e[0]);
    var s2 := Next(s1, rules, e[1]);
    var s3 := Next(s2, rules, e[2]);
    var s4 := Next(s3, rules, e[3]);
    var s5 := Next(s4, rules, e[4]);
    assert s2.stuck == {} && s3.dir == map[n := 40];
    assert IsHistory(s5, rules, []) && IsPlain(s5, rules, []) && After(s5, rules, []) == s5;
    Then(s4, rules, e[4], []);
    Then(s3, rules, e[3], [e[4]] + []);
    Then(s2, rules, e[2], [e[3]] + ([e[4]] + []));
    var late := [e[2]] + ([e[3]] + ([e[4]] + []));
    Then(s1, rules, e[1], late);
    Then(Published, rules, e[0], [e[1]] + late);
    assert [e[0]] + ([e[1]] + late) == e;
  }

  function Recapture(n: Name): seq<Event> {
    FirstAttempt(n, 100) + ([Publish(Some(n), true)] + SecondCapture(n))
  }

  /**
   * A published recording of 100 bytes is replaced by one of 40: the worker died between the
   * publication and its hop, the video was handed back, and the still-live broadcast was
   * captured again.
   */
  lemma RecaptureShrinksPublication(rules: Rules, n: Name)
    requires n.epoch.None? && Media(rules, n)
    ensures IsHistory(FRESH, rules, Recapture(n)) && IsPlain(FRESH, rules, Recapture(n))
    ensures After(FRESH, rules, FirstAttempt(n, 100) + [Publish(Some(n), true)]) == Published
    ensures After(FRESH, rules, Recapture(n)) == Replaced && !Held(Replaced, rules)
  {
    FirstIsRecorded(rules, n, 100);
    FirstIsPublished(rules, n);
    SecondShrinks(rules, n);
    Joined(FRESH, rules, FirstAttempt(n, 100), [Publish(Some(n), true)]);
    Joined(Recorded(n, 100), rules, [Publish(Some(n), true)], SecondCapture(n));
    Joined(FRESH, rules, FirstAttempt(n, 100), [Publish(Some(n), true)] + SecondCapture(n));
  }

  /** A second attempt outgrows the first and is published by a process that dies before it wipes staging. */
  function Leftover(n: Name): seq<Event> {
    [StartAttempt([n], 2, {}), Record(n, 100), Stop, Publish(Some(n), false)]
  }

  lemma LeftoverStays(rules: Rules, n: Name)
    requires n.epoch.None? && Media(rules, n)
    ensures IsHistory(Recorded(n, 40), rules, Leftover(n))
    ensures After(Recorded(n, 40), rules, Leftover(n)) ==
            History(map[Aside(n, 2) := 40], 100, Downloading, false, {}, 100)
  {
    var e := Leftover(n);
    var s1 := Next(Recorded(n, 40), rules, e[0]);
    var dir: Dir := map[n := 40];
    assert [n][1..] == [] && Renamed(Rename(dir, n, 2), [], rules, 2, {}) == Rename(dir, n, 2);
    assert Renamed(dir, [n], rules, 2, {}) == Rename(dir, n, 2);
    assert s1.stuck == {} && s1.dir == Rename(map[n := 40], n, 2) == map[Aside(n, 2) := 40];
    var s2 := Next(s1, rules, e[1]);
    var s3 := Next(s2, rules, e[2]);
    var s4 := Next(s3, rules, e[3]);
    assert s2.dir == map[Aside(n, 2) := 40, n := 100] && s4.dir == map[Aside(n, 2) := 40];
    assert IsHistory(s4, rules, []) && After(s4, rules, []) == s4;
    Then(s3, rules, e[3], []);
    Then(s2, rules, e[2], [e[3]] + []);
    Then(s1, rules, e[1], [e[2]] + ([e[3]] + []));
    Then(Recorded(n, 40), rules, e[0], [e[1]] + ([e[2]] + ([e[3]] + [])));
    assert [e[0]] + ([e[1]] + ([e[2]] + ([e[3]] + []))) == e;
  }

  /** The next publication finds only the smaller leftover and replaces the larger recording by it. */
  lemma LeftoverShrinksPublication(rules: Rules, n: Name)
    requires n.epoch.None? && Media(rules, n)
    ensures var before := FirstAttempt(n, 40) + Leftover(n);
      var last := Publish(Some(Aside(n, 2)), true);
      IsHistory(FRESH, rules, before + [last]) && After(FRESH, rules, before).vault == 100 &&
      After(FRESH, rules, before + [last]) == Replaced
  {
    var last := Publish(Some(Aside(n, 2)), true);
    FirstIsRecorded(rules, n, 40);
    LeftoverStays(rules, n);
    Joined(FRESH, rules, FirstAttempt(n, 40), Leftover(n));
    var t := After(FRESH, rules, FirstAttempt(n, 40) + Leftover(n));
    assert IsHistory(Replaced, rules, []) && After(Replaced, rules, []) == Replaced;
    Then(t, rules, last, []);
    assert [last] + [] == [last];
    Joined(FRESH, rules, FirstAttempt(n, 40) + Leftover(n), [last]);
  }

  /** The rename of a 100-byte recording fails, and the fresh run writes 40 bytes over it. */
  lemma FailedRenameLosesRecording(rules: Rules, n: Name)
    requires n.epoch.None? && Media(rules, n)
    ensures var events := FirstAttempt(n, 100) + [StartAttempt([n], 2, {n}), Overwrite(n, 40)];
      IsHistory(FRESH, rules, events) && !Held(After(FRESH, rules, events), rules)
  {
    var start, over := StartAttempt([n], 2, {n}), Overwrite(n, 40);
    var s := Recorded(n, 100);
    var t := Next(s, rules, start);
    var u := Next(t, rules, over);
    RenamedIsAside(s.dir, [n], rules, 2, {n});
    assert t.dir[n] == 100;
    assert n in t.dir && t.stuck == {n};
    assert u.dir[n] == 40 && forall m | m in u.dir :: m == n;
    assert After(u, rules, []) == u && IsHistory(u, rules, []);
    Then(t, rules, over, []);
    Then(s, rules, start, [over] + []);
    assert [start] + ([over] + []) == [start, over];
    FirstIsRecorded(rules, n, 100);
    Joined(FRESH, rules, FirstAttempt(n, 100), [start, over]);
  }

  // -------------------------------------------------------- split-format recordings --

  /** Names carried over one to one, to files at least as large, carry the total over. */
  lemma {:induction false} TotalCarries(dir: Dir, listing: seq<Name>, epoch: Option<nat>, dir': Dir,
          listing': seq<Name>, epoch': Option<nat>, rules: Rules, to: Name -> Name)
    requires forall i, j | 0 <= i < j < |listing| :: to(listing[i]) != to(listing[j])
    requires forall n | n in listing && MediaOf(rules, n, epoch) ::
      to(n) in listing' && MediaOf(rules, to(n), epoch') && SizeIn(dir, n) <= SizeIn(dir', to(n))
    ensures GenBytes(dir, listing, rules, epoch) <= GenBytes(dir', listing', rules, epoch')
    decreases |listing|
  {
    if listing != [] {
      var n := listing[0];
      if MediaOf(rules, n, epoch) {
        var k :| 0 <= k < |listing'| && listing'[k] == to(n);
        var rest := listing'[..k] + listing'[k + 1..];
        Without(dir', listing', rules, epoch', k);
        forall m | m in listing[1..] && MediaOf(rules, m, epoch) ensures to(m) in rest {
          assert m in listing && to(m) != to(n);
        }
        TotalCarries(dir, listing[1..], epoch, dir', rest, epoch', rules, to);
      } else {
        TotalCarries(dir, listing[1..], epoch, dir', listing', epoch', rules, to);
      }
    }
  }

  lemma Without(dir: Dir, listing: seq<Name>, rules: Rules, epoch: Option<nat>, k: nat)
    requires k < |listing| && MediaOf(rules, listing[k], epoch)
    ensures GenBytes(dir, listing, rules, epoch) ==
            SizeIn(dir, listing[k]) + GenBytes(dir, listing[..k] + listing[k + 1..], rules, epoch)
  {
    assert listing == listing[..k] + ([listing[k]] + listing[k + 1..]);
    GenBytesOfBoth(dir, listing[..k], [listing[k]] + listing[k + 1..], rules, epoch);
    GenBytesOfBoth(dir, [listing[k]], listing[k + 1..], rules, epoch);
    GenBytesOfBoth(dir, listing[..k], listing[k + 1..], rules, epoch);
  }

  /** Renames succeed, and nothing is published: attempts stay in one piece. */
  ghost predicate Whole(s: History, e: Event) {
    (e.StartAttempt? ==> forall n | n in e.stuck :: n !in s.dir) && !e.Overwrite? && !e.Publish?
  }

  lemma SameNames(dir: Dir, listing: seq<Name>, epoch: Option<nat>, dir': Dir, listing': seq<Name>, rules: Rules)
    requires IsListing(dir, listing) && IsListing(dir', listing')
    requires forall n | n in dir && MediaOf(rules, n, epoch) :: n in dir' && dir[n] <= dir'[n]
    ensures GenBytes(dir, listing, rules, epoch) <= GenBytes(dir', listing', rules, epoch)
  {
    TotalCarries(dir, listing, epoch, dir', listing', epoch, rules, n => n);
  }

  lemma StartMovesCurrent(s: History, rules: Rules, e: Event, listing: seq<Name>, listing': seq<Name>)
    requires Possible(s, rules, e) && Whole(s, e) && e.StartAttempt?
    requires IsListing(s.dir, listing) && IsListing(Next(s, rules, e).dir, listing')
    ensures GenBytes(Next(s, rules, e).dir, listing', rules, Some(e.now)) >= GenBytes(s.dir, listing, rules, None)
  {
    var dir' := Next(s, rules, e).dir;
    RenamedIsAside(s.dir, e.listing, rules, e.now, e.stuck);
    var to := (n: Name) => if n.epoch.None? then Aside(n, e.now) else n;
    forall n | n in s.dir && MediaOf(rules, n, None) ensures to(n) in dir' && dir'[to(n)] == s.dir[n] {
      assert Before(Aside(n, e.now), e.now) == n;
    }
    TotalCarries(s.dir, listing, None, dir', listing', Some(e.now), rules, to);
  }

  lemma StartSparesPriors(s: History, rules: Rules, e: Event, listing: seq<Name>, epoch: nat, listing': seq<Name>)
    requires Possible(s, rules, e) && e.StartAttempt?
    requires IsListing(s.dir, listing) && IsListing(Next(s, rules, e).dir, listing')
    ensures GenBytes(Next(s, rules, e).dir, listing', rules, Some(epoch)) >=
            GenBytes(s.dir, listing, rules, Some(epoch))
  {
    var dir' := Next(s, rules, e).dir;
    RenamedIsAside(s.dir, e.listing, rules, e.now, e.stuck);
    forall n | n in s.dir && MediaOf(rules, n, Some(epoch)) ensures n in dir' && s.dir[n] <= dir'[n] {
      assert n.epoch != Some(e.now) && Before(n, e.now) == n;
    }
    SameNames(s.dir, listing, Some(epoch), dir', listing', rules);
  }

  lemma StartKeepsTotals(s: History, rules: Rules, e: Event, listing: seq<Name>, epoch: Option<nat>,
          listing': seq<Name>)
    requires Possible(s, rules, e) && Whole(s, e) && e.StartAttempt?
    requires IsListing(s.dir, listing) && IsListing(Next(s, rules, e).dir, listing')
    ensures exists kept ::
      GenBytes(Next(s, rules, e).dir, listing', rules, kept) >= GenBytes(s.dir, listing, rules, epoch)
  {
    if epoch.None? {
      StartMovesCurrent(s, rules, e, listing, listing');
    } else {
      StartSparesPriors(s, rules, e, listing, epoch.value, listing');
    }
  }

  lemma TickKeepsTotals(s: History, rules: Rules, e: Event, listing: seq<Name>, epoch: Option<nat>, listing': seq<Name>)
    requires Possible(s, rules, e) && e.ReclaimTick? && IsListing(s.dir, listing) &&
        IsListing(Next(s, rules, e).dir, listing')
    ensures exists kept ::
      GenBytes(Next(s, rules, e).dir, listing', rules, kept) >= GenBytes(s.dir, listing, rules, epoch)
  {
    var dir' := Next(s, rules, e).dir;
    SameNames(s.dir, listing, epoch, s.dir, e.listing, rules);
    SameNames(s.dir, e.listing, None, dir', listing', rules);
    if !(epoch.Some? && Superseded(s.dir, e.listing, rules, epoch.value)) {
      SameNames(s.dir, listing, epoch, dir', listing', rules);
    }
  }

  lemma EventKeepsTotals(s: History, rules: Rules, e: Event, listing: seq<Name>, epoch: Option<nat>,
          listing': seq<Name>)
    requires Possible(s, rules, e) && Whole(s, e)
    requires IsListing(s.dir, listing) && IsListing(Next(s, rules, e).dir, listing')
    ensures exists kept ::
      GenBytes(Next(s, rules, e).dir, listing', rules, kept) >= GenBytes(s.dir, listing, rules, epoch)
  {
    match e
    case StartAttempt(_, _, _) => StartKeepsTotals(s, rules, e, listing, epoch, listing');
    case ReclaimTick(_, _) => TickKeepsTotals(s, rules, e, listing, epoch, listing');
    case Record(n, size) => SameNames(s.dir, listing, epoch, Next(s, rules, e).dir, listing', rules);
    case WriteSidecar(n, size) => SameNames(s.dir, listing, epoch, Next(s, rules, e).dir, listing', rules);
    case Stop => SameNames(s.dir, listing, epoch, s.dir, listing', rules);
    case Hop(_) => SameNames(s.dir, listing, epoch, s.dir, listing', rules);
  }

  lemma {:induction false} ListingExists(dir: Dir) returns (listing: seq<Name>)
    ensures IsListing(dir, listing)
    decreases |dir|
  {
    if dir == map[] {
      listing := [];
    } else {
      var n :| n in dir;
      var rest := ListingExists(dir - {n});
      listing := [n] + rest;
    }
  }

  ghost predicate IsWhole(s: History, rules: Rules, events: seq<Event>)
    decreases |events|
  {
    events == [] || (Whole(s, events[0]) && IsWhole(Next(s, rules, events[0]), rules, events[1..]))
  }

  /**
   * However recordings are split over files: until something is published, over any history
   * in which the renames succeed, the greatest total of an attempt never shrinks. What any
   * attempt had recorded at any time, some attempt still holds in full at every later time.
   */
  lemma {:induction false} TotalsNeverShrink(s: History, rules: Rules, events: seq<Event>, listing: seq<Name>,
          epoch: Option<nat>, listing': seq<Name>)
    requires IsHistory(s, rules, events) && IsWhole(s, rules, events)
    requires IsListing(s.dir, listing) && IsListing(After(s, rules, events).dir, listing')
    ensures exists kept ::
      GenBytes(After(s, rules, events).dir, listing', rules, kept) >= GenBytes(s.dir, listing, rules, epoch)
    decreases |events|
  {
    if events == [] {
      SameNames(s.dir, listing, epoch, s.dir, listing', rules);
    } else {
      var t := Next(s, rules, events[0]);
      var mid := ListingExists(t.dir);
      EventKeepsTotals(s, rules, events[0], listing, epoch, mid);
      var next :| GenBytes(t.dir, mid, rules, next) >= GenBytes(s.dir, listing, rules, epoch);
      TotalsNeverShrink(t, rules, events[1..], mid, next, listing');
    }
  }

  /** A rename that fails splits an attempt: 60 + 60 bytes become two attempts of 60. */
  lemma FailedRenameSplitsTotal(rules: Rules, video: Name, audio: Name)
    requires video.epoch.None? && audio.epoch.None? && video != audio && Media(rules, video) && Media(rules, audio)
    ensures var dir := map[video := 60, audio := 60];
      var dir' := Renamed(dir, [video, audio], rules, 2, {audio});
      IsListing(dir, [video, audio]) && GenBytes(dir, [video, audio], rules, None) == 120 &&
      IsListing(dir', [Aside(video, 2), audio]) &&
      forall epoch :: GenBytes(dir', [Aside(video, 2), audio], rules, epoch) <= 60
  {
    var dir := map[video := 60, audio := 60];
    var moved := Aside(video, 2);
    assert Rename(dir, video, 2) == map[moved := 60, audio := 60];
    assert [video, audio][1..] == [audio] && [audio][1..] == [];
    var dir' := Renamed(dir, [video, audio], rules, 2, {audio});
    assert Renamed(Rename(dir, video, 2), [], rules, 2, {audio}) == Rename(dir, video, 2);
    assert dir' == Renamed(Rename(dir, video, 2), [audio], rules, 2, {audio}) == map[moved := 60, audio := 60];
    TwoFiles(dir, video, audio, rules, None);
    forall epoch ensures GenBytes(dir', [moved, audio], rules, epoch) <= 60 {
      TwoFiles(dir', moved, audio, rules, epoch);
    }
  }

  lemma TwoFiles(dir: Dir, a: Name, b: Name, rules: Rules, epoch: Option<nat>)
    ensures GenBytes(dir, [a, b], rules, epoch) == Share(dir, rules, a, epoch) + Share(dir, rules, b, epoch)
  {
    assert [a, b] == [a] + [b];
    GenBytesOfBoth(dir, [a], [b], rules, epoch);
  }

  /** The largest recording belongs to an attempt that the current one has not caught up with. */
  ghost predicate LargestIsSafe(dir: Dir, listing: seq<Name>, rules: Rules, size: nat) {
    exists n | n in dir ::
      Media(rules, n) && dir[n] == size && (n.epoch.None? || !Superseded(dir, listing, rules, n.epoch.value))
  }

  /**
   * A tick on unlocked files keeps the publishable size exactly when some largest recording
   * is of the current attempt or of one whose total exceeds the current total.
   */
  lemma TickKeepsLargest(dir: Dir, listing: seq<Name>, rules: Rules, media: Name, after: Option<Name>)
    requires IsListing(dir, listing) && IsLargest(dir, rules, Some(media))
    requires IsLargest(Reclaimed(dir, listing, rules, {}), rules, after)
    ensures (after.Some? && dir[after.value] == dir[media]) <==> LargestIsSafe(dir, listing, rules, dir[media])
  {
    var dir' := Reclaimed(dir, listing, rules, {});
    if LargestIsSafe(dir, listing, rules, dir[media]) {
      var n :| n in dir && Media(rules, n) && dir[n] == dir[media] &&
               (n.epoch.None? || !Superseded(dir, listing, rules, n.epoch.value));
      assert n in dir' && dir'[n] == dir[media];
    }
  }

  /** 100 bytes in one file, then an attempt that records 60 + 60: the tick drops the 100. */
  lemma SplitRecordingLosesLargest(rules: Rules, prior: Name, video: Name, audio: Name)
    requires prior.epoch == Some(1) && video.epoch.None? && audio.epoch.None? && video != audio
    requires Media(rules, prior) && Media(rules, video) && Media(rules, audio)
    ensures var dir := map[prior := 100, video := 60, audio := 60];
      var after := Reclaimed(dir, [prior, video, audio], rules, {});
      IsListing(dir, [prior, video, audio]) && IsLargest(dir, rules, Some(prior)) &&
          IsLargest(after, rules, Some(video))
  {
    var dir := map[prior := 100, video := 60, audio := 60];
    ThreeFiles(dir, prior, video, audio, rules, None);
    ThreeFiles(dir, prior, video, audio, rules, Some(1));
    var after := Reclaimed(dir, [prior, video, audio], rules, {});
    assert prior !in after && video in after && audio in after;
  }

  function Share(dir: Dir, rules: Rules, n: Name, epoch: Option<nat>): nat {
    if MediaOf(rules, n, epoch) then SizeIn(dir, n) else 0
  }

  lemma ThreeFiles(dir: Dir, a: Name, b: Name, c: Name, rules: Rules, epoch: Option<nat>)
    ensures GenBytes(dir, [a, b, c], rules, epoch) ==
            Share(dir, rules, a, epoch) + Share(dir, rules, b, epoch) + Share(dir, rules, c, epoch)
  {
    assert [a, b, c] == [a] + ([b] + [c]);
    GenBytesOfBoth(dir, [a], [b] + [c], rules, epoch);
    GenBytesOfBoth(dir, [b], [c], rules, epoch);
  }
}
