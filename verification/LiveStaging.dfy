/**
 * The live staging directory: what an attempt recorded, what earlier attempts left, which
 * of it is reclaimed while recording, and which file is published.
 */
module LiveStaging {
  import opened Domain

  /** An on-disk name: prior-<epochms>-<original>, or the original alone. */
  datatype Name = Name(epoch: Option<nat>, original: string)

  /** The regular files of the directory with their sizes. */
  type Dir = map<Name, nat>

  const SCRATCH_EXTS := {"part", "ytdl"}
  const PUBLISHABLE_EXTS := {"json", "vtt", "srt", "ass", "jpg", "jpeg", "png", "webp"}

  function LowerCase(c: char): char {
    if 'A' <= c <= 'Z' then c - 'A' + 'a' else c
  }

  function Lower(s: string): string {
    if s == "" then "" else [LowerCase(s[0])] + Lower(s[1..])
  }

  /** What follows the last dot, lower-cased; empty without a dot. */
  function ExtOf(name: string): string
    decreases |name|
  {
    if '.' !in name then "" else if '.' in name[1..] then ExtOf(name[1..]) else
      if name[0] == '.' then Lower(name[1..]) else ""
  }

  /** What a file is, by its original name. */
  datatype Kind = Foreign | Recording | Publishable | Scratch

  /** videoFiles' filter on "<videoId>.", then the extension tables. */
  function KindOf(videoId: string, original: string): Kind {
    if !(videoId + "." <= original) then Foreign
    else if ExtOf(original) in PUBLISHABLE_EXTS then Publishable
    else if ExtOf(original) in SCRATCH_EXTS then Scratch
    else Recording
  }

  /** The kinds of the original names that occur. The results below hold for any such table. */
  type Rules = map<string, Kind>

  function RulesFor(videoId: string, originals: set<string>): Rules {
    map o | o in originals :: KindOf(videoId, o)
  }

  function KindIn(rules: Rules, n: Name): Kind {
    if n.original in rules then rules[n.original] else Foreign
  }

  predicate Mine(rules: Rules, n: Name) {
    KindIn(rules, n) != Foreign
  }

  predicate IsSidecar(rules: Rules, n: Name) {
    KindIn(rules, n) == Publishable || KindIn(rules, n) == Scratch
  }

  /** A recording, of the current attempt or of an earlier one. */
  predicate Media(rules: Rules, n: Name) {
    Mine(rules, n) && !IsSidecar(rules, n)
  }

  /** A recording of the attempt with the given epoch (None: the current one). */
  predicate MediaOf(rules: Rules, n: Name, epoch: Option<nat>) {
    Media(rules, n) && n.epoch == epoch
  }

  /** What readdir returns: every file once, in some order. */
  ghost predicate IsListing(dir: Dir, listing: seq<Name>) {
    && (forall n :: n in listing <==> n in dir)
    && (forall i, j | 0 <= i < j < |listing| :: listing[i] != listing[j])
  }

  function SizeIn(dir: Dir, n: Name): nat {
    if n in dir then dir[n] else 0
  }

  /** Media bytes of one attempt. */
  function GenBytes(dir: Dir, listing: seq<Name>, rules: Rules, epoch: Option<nat>): nat {
    if listing == [] then 0
    else (if MediaOf(rules, listing[0], epoch) then SizeIn(dir, listing[0]) else 0) +
         GenBytes(dir, listing[1..], rules, epoch)
  }

  /** Media bytes of all attempts. */
  function MediaBytes(dir: Dir, listing: seq<Name>, rules: Rules): nat {
    if listing == [] then 0
    else (if Media(rules, listing[0]) then SizeIn(dir, listing[0]) else 0) + MediaBytes(dir, listing[1..], rules)
  }

  /** A prior attempt that the current one has caught up with. */
  predicate Superseded(dir: Dir, listing: seq<Name>, rules: Rules, epoch: nat) {
    0 < GenBytes(dir, listing, rules, Some(epoch)) <= GenBytes(dir, listing, rules, None)
  }

  predicate Reclaimable(dir: Dir, listing: seq<Name>, rules: Rules, n: Name) {
    Mine(rules, n) && n.epoch.Some? && Superseded(dir, listing, rules, n.epoch.value)
  }

  // ------------------------------------------------------------- partial sums --

  lemma GenBytesNext(dir: Dir, listing: seq<Name>, rules: Rules, epoch: Option<nat>, k: nat)
    requires k < |listing|
    ensures GenBytes(dir, listing[..k + 1], rules, epoch) ==
            GenBytes(dir, listing[..k], rules, epoch) +
            if MediaOf(rules, listing[k], epoch) then SizeIn(dir, listing[k]) else 0
  {
    GenBytesOfBoth(dir, listing[..k], [listing[k]], rules, epoch);
    assert listing[..k + 1] == listing[..k] + [listing[k]];
  }

  lemma {:induction false} GenBytesOfBoth(dir: Dir, a: seq<Name>, b: seq<Name>, rules: Rules, epoch: Option<nat>)
    ensures GenBytes(dir, a + b, rules, epoch) == GenBytes(dir, a, rules, epoch) + GenBytes(dir, b, rules, epoch)
  {
    if a == [] {
      assert a + b == b;
    } else {
      GenBytesOfBoth(dir, a[1..], b, rules, epoch);
      assert (a + b)[1..] == a[1..] + b;
    }
  }

  lemma {:induction false} MediaBytesOfBoth(dir: Dir, a: seq<Name>, b: seq<Name>, rules: Rules)
    ensures MediaBytes(dir, a + b, rules) == MediaBytes(dir, a, rules) + MediaBytes(dir, b, rules)
  {
    if a == [] {
      assert a + b == b;
    } else {
      MediaBytesOfBoth(dir, a[1..], b, rules);
      assert (a + b)[1..] == a[1..] + b;
    }
  }

  lemma {:induction false} GenBytesBounds(dir: Dir, listing: seq<Name>, rules: Rules, n: Name)
    requires n in listing && Media(rules, n)
    ensures SizeIn(dir, n) <= GenBytes(dir, listing, rules, n.epoch)
  {
    if listing[0] != n { GenBytesBounds(dir, listing[1..], rules, n); }
  }

  /** Without media there is nothing to count. */
  lemma {:induction false} NoMediaNoBytes(dir: Dir, listing: seq<Name>, rules: Rules, epoch: Option<nat>)
    requires forall n | n in listing :: !MediaOf(rules, n, epoch)
    ensures GenBytes(dir, listing, rules, epoch) == 0
  {
    if listing != [] {
      assert listing[0] in listing && forall n | n in listing[1..] :: n in listing;
      NoMediaNoBytes(dir, listing[1..], rules, epoch);
    }
  }

  /** An attempt with a single media file weighs what that file weighs. */
  lemma {:induction false} SoleFileIsAll(dir: Dir, listing: seq<Name>, rules: Rules, n: Name)
    requires n in listing && Media(rules, n)
    requires forall i, j | 0 <= i < j < |listing| :: listing[i] != listing[j]
    requires forall m | m in listing && MediaOf(rules, m, n.epoch) :: m == n
    ensures GenBytes(dir, listing, rules, n.epoch) == SizeIn(dir, n)
  {
    var rest := listing[1..];
    assert forall m | m in rest :: m in listing;
    if listing[0] == n {
      assert n !in rest;
      NoMediaNoBytes(dir, rest, rules, n.epoch);
    } else {
      SoleFileIsAll(dir, rest, rules, n);
    }
  }

  /** The total depends on the files listed, not on the order or on other files. */
  lemma {:induction false} GenBytesFrame(dir: Dir, dir': Dir, listing: seq<Name>, rules: Rules, epoch: Option<nat>)
    requires forall n | n in listing && MediaOf(rules, n, epoch) :: SizeIn(dir, n) == SizeIn(dir', n)
    ensures GenBytes(dir, listing, rules, epoch) == GenBytes(dir', listing, rules, epoch)
  {
    if listing != [] {
      assert listing[0] in listing && forall n | n in listing[1..] :: n in listing;
      GenBytesFrame(dir, dir', listing[1..], rules, epoch);
    }
  }

  // --------------------------------------------------------------- the directory --

  /** The publishable result: the recording and its size, or nothing. */
  datatype Artifacts = Artifacts(media: Option<Name>, sidecars: seq<Name>)

  /** The file a publication keeps is a recording no smaller than any other. */
  ghost predicate IsLargest(dir: Dir, rules: Rules, media: Option<Name>) {
    match media
    case None => forall n | n in dir && Media(rules, n) :: dir[n] == 0
    case Some(m) =>
      m in dir && Media(rules, m) && dir[m] > 0 && forall n | n in dir && Media(rules, n) :: dir[n] <= dir[m]
  }

  function Aside(n: Name, now: nat): Name {
    n.(epoch := Some(now))
  }

  /** Where the file now called m was before the renames at time now. */
  function Before(m: Name, now: nat): Name {
    if m.epoch == Some(now) then Name(None, m.original) else m
  }

  function Rename(dir: Dir, n: Name, now: nat): Dir {
    if n in dir then (dir - {n})[Aside(n, now) := dir[n]] else dir
  }

  /** A recording of the current attempt that can be renamed; the stuck ones cannot. */
  predicate Moves(rules: Rules, n: Name, stuck: set<Name>) {
    MediaOf(rules, n, None) && n !in stuck
  }

  /** The renames of the listed recordings of the current attempt, one after the other; a failure is skipped. */
  function Renamed(dir: Dir, listing: seq<Name>, rules: Rules, now: nat, stuck: set<Name>): Dir
    decreases |listing|
  {
    if listing == [] then dir
    else
      Renamed(if Moves(rules, listing[0], stuck) then Rename(dir, listing[0], now) else dir,
              listing[1..], rules, now, stuck)
  }

  function MoveCount(listing: seq<Name>, rules: Rules, stuck: set<Name>): nat {
    if listing == [] then 0
    else (if Moves(rules, listing[0], stuck) then 1 else 0) + MoveCount(listing[1..], rules, stuck)
  }

  /** Every recording of the current attempt that could be renamed is at its aside name, the rest where it was. */
  ghost predicate SetAside(dir: Dir, dir': Dir, rules: Rules, now: nat, stuck: set<Name>) {
    && (forall m | m in dir' :: Before(m, now) in dir && dir'[m] == dir[Before(m, now)] &&
                                (m.epoch == Some(now) <==> Moves(rules, Before(m, now), stuck)))
    && (forall m | m in dir :: if Moves(rules, m, stuck) then m !in dir' && Aside(m, now) in dir' else m in dir')
  }

  predicate ToMove(listing: seq<Name>, rules: Rules, stuck: set<Name>, n: Name) {
    n in listing && Moves(rules, n, stuck)
  }

  /** What the renames do to one name. */
  lemma {:induction false} RenamedAt(dir: Dir, listing: seq<Name>, rules: Rules, now: nat, stuck: set<Name>, m: Name)
    requires forall i, j | 0 <= i < j < |listing| :: listing[i] != listing[j]
    requires forall n | ToMove(listing, rules, stuck, n) :: n in dir && Aside(n, now) !in dir
    ensures var dir' := Renamed(dir, listing, rules, now, stuck);
      if m.epoch == Some(now) && ToMove(listing, rules, stuck, Before(m, now))
      then m in dir' && dir'[m] == SizeIn(dir, Before(m, now))
      else if ToMove(listing, rules, stuck, m) then m !in dir'
      else (m in dir' <==> m in dir) && SizeIn(dir', m) == SizeIn(dir, m)
    decreases |listing|
  {
    if listing != [] {
      var n, rest := listing[0], listing[1..];
      assert n !in rest && forall x | x in rest :: x in listing;
      assert forall x ::
        ToMove(listing, rules, stuck, x) <==> ToMove(rest, rules, stuck, x) || (x == n && Moves(rules, n, stuck));
      var next := if Moves(rules, n, stuck) then Rename(dir, n, now) else dir;
      assert forall x | ToMove(rest, rules, stuck, x) :: ToMove(listing, rules, stuck, x) && x != n;
      RenamedAt(next, rest, rules, now, stuck, m);
    }
  }

  lemma RenamedIsAside(dir: Dir, listing: seq<Name>, rules: Rules, now: nat, stuck: set<Name>)
    requires IsListing(dir, listing) && forall m | m in dir :: m.epoch != Some(now)
    ensures SetAside(dir, Renamed(dir, listing, rules, now, stuck), rules, now, stuck)
  {
    var dir' := Renamed(dir, listing, rules, now, stuck);
    forall m
      ensures m in dir' ==> Before(m, now) in dir && dir'[m] == dir[Before(m, now)] &&
                            (m.epoch == Some(now) <==> Moves(rules, Before(m, now), stuck))
      ensures m in dir ==> if Moves(rules, m, stuck) then m !in dir' && Aside(m, now) in dir' else m in dir'
    {
      RenamedAt(dir, listing, rules, now, stuck, m);
      RenamedAt(dir, listing, rules, now, stuck, Aside(m, now));
    }
  }

  /** What a reclaim leaves; locked files could not be deleted. */
  function Reclaimed(dir: Dir, listing: seq<Name>, rules: Rules, locked: set<Name>): Dir {
    map n | n in dir && (n in locked || !Reclaimable(dir, listing, rules, n)) :: dir[n]
  }

  function AllBytes(dir: Dir, listing: seq<Name>): nat {
    if listing == [] then 0 else SizeIn(dir, listing[0]) + AllBytes(dir, listing[1..])
  }

  lemma {:induction false} DeletingOne(dir: Dir, listing: seq<Name>, n: Name)
    requires n in dir && forall i, j | 0 <= i < j < |listing| :: listing[i] != listing[j]
    ensures AllBytes(dir, listing) == AllBytes(dir - {n}, listing) + if n in listing then dir[n] else 0
  {
    if listing != [] { DeletingOne(dir, listing[1..], n); }
  }

  /** One earlier attempt: its files and the bytes of its recordings. */
  datatype Generation = Generation(files: set<Name>, mediaBytes: nat)

  function PriorFiles(listing: seq<Name>, rules: Rules, epoch: nat): set<Name> {
    set n | n in listing && Mine(rules, n) && n.epoch == Some(epoch)
  }

  /** order lists the generations as they were first met. */
  ghost predicate Grouped(dir: Dir, listing: seq<Name>, rules: Rules, generations: map<nat, Generation>,
          order: seq<nat>) {
    && (forall e | e in generations ::
          generations[e] == Generation(PriorFiles(listing, rules, e), GenBytes(dir, listing, rules, Some(e))))
    && (forall n | n in listing && Mine(rules, n) && n.epoch.Some? :: n.epoch.value in generations)
    && (forall e :: e in order <==> e in generations)
  }

  function WithFile(dir: Dir, rules: Rules, generations: map<nat, Generation>, n: Name): map<nat, Generation>
    requires n.epoch.Some?
  {
    var gen := if n.epoch.value in generations then generations[n.epoch.value] else Generation({}, 0);
    generations[n.epoch.value := Generation(gen.files + {n},
      gen.mediaBytes + if IsSidecar(rules, n) then 0 else SizeIn(dir, n))]
  }

  /** Adding the next listed file to its generation. */
  lemma GroupOneMore(dir: Dir, listing: seq<Name>, rules: Rules, generations: map<nat, Generation>, order: seq<nat>,
          k: nat)
    requires k < |listing| && Grouped(dir, listing[..k], rules, generations, order)
    ensures var n := listing[k];
      if Mine(rules, n) && n.epoch.Some? then
        Grouped(dir, listing[..k + 1], rules, WithFile(dir, rules, generations, n),
                if n.epoch.value in generations then order else order + [n.epoch.value])
      else Grouped(dir, listing[..k + 1], rules, generations, order)
  {
    var n := listing[k];
    assert listing[..k + 1] == listing[..k] + [n];
    forall e: nat ensures GenBytes(dir, listing[..k + 1], rules, Some(e)) ==
      GenBytes(dir, listing[..k], rules, Some(e)) + if MediaOf(rules, n, Some(e)) then SizeIn(dir, n) else 0
    {
      GenBytesNext(dir, listing, rules, Some(e), k);
    }
    if Mine(rules, n) && n.epoch.Some? {
      var e := n.epoch.value;
      if e !in generations {
        assert PriorFiles(listing[..k], rules, e) == {};
        NoMediaNoBytes(dir, listing[..k], rules, Some(e));
      }
      assert PriorFiles(listing[..k + 1], rules, e) == PriorFiles(listing[..k], rules, e) + {n};
    }
    forall e: nat | !(Mine(rules, n) && n.epoch == Some(e))
      ensures PriorFiles(listing[..k + 1], rules, e) == PriorFiles(listing[..k], rules, e)
    {}
  }

  function Sidecars(listing: seq<Name>, rules: Rules): seq<Name> {
    if listing == [] then []
    else
      var n := listing[|listing| - 1];
      Sidecars(listing[..|listing| - 1], rules) +
      if Mine(rules, n) && IsSidecar(rules, n) && KindIn(rules, n) == Publishable && n.epoch.None? then [n] else []
  }

  predicate Doomed(gen: Generation, currentBytes: nat) {
    0 < gen.mediaBytes <= currentBytes
  }

  /** The deletions, generation by generation. */
  function Deleted(dir: Dir, generations: map<nat, Generation>, order: seq<nat>, currentBytes: nat,
          locked: set<Name>): Dir
    decreases |order|
  {
    if order == [] then dir
    else
      var e := order[0];
      Deleted(if e in generations && Doomed(generations[e], currentBytes)
              then dir - (generations[e].files - locked) else dir,
              generations, order[1..], currentBytes, locked)
  }

  predicate InDoomed(generations: map<nat, Generation>, order: seq<nat>, currentBytes: nat, n: Name) {
    n.epoch.Some? && n.epoch.value in order && n.epoch.value in generations &&
    Doomed(generations[n.epoch.value], currentBytes) && n in generations[n.epoch.value].files
  }

  /** A generation holds files of its epoch only. */
  ghost predicate Homogeneous(generations: map<nat, Generation>) {
    forall e, n | e in generations && n in generations[e].files :: n.epoch == Some(e)
  }

  lemma {:induction false} DeletedAt(
      dir: Dir, generations: map<nat, Generation>, order: seq<nat>, currentBytes: nat, locked: set<Name>, n: Name)
    requires Homogeneous(generations)
    ensures var dir' := Deleted(dir, generations, order, currentBytes, locked);
      (n in dir' <==> n in dir && (n in locked || !InDoomed(generations, order, currentBytes, n))) &&
      (n in dir' ==> dir'[n] == dir[n])
    decreases |order|
  {
    if order != [] {
      var e := order[0];
      var next := if e in generations && Doomed(generations[e], currentBytes)
          then dir - (generations[e].files - locked) else dir;
      DeletedAt(next, generations, order[1..], currentBytes, locked, n);
    }
  }

  lemma DeletedIsReclaimed(dir: Dir, listing: seq<Name>, rules: Rules, locked: set<Name>,
                           generations: map<nat, Generation>, order: seq<nat>)
    requires IsListing(dir, listing) && Grouped(dir, listing, rules, generations, order)
    ensures Homogeneous(generations)
    ensures Deleted(dir, generations, order, GenBytes(dir, listing, rules, None), locked) ==
            Reclaimed(dir, listing, rules, locked)
  {
    var current := GenBytes(dir, listing, rules, None);
    var x, y := Deleted(dir, generations, order, current, locked), Reclaimed(dir, listing, rules, locked);
    forall n ensures (n in x <==> n in y) && (n in x ==> x[n] == y[n]) {
      DeletedAt(dir, generations, order, current, locked, n);
    }
  }

  /** Without current media every earlier attempt is still the fallback. */
  lemma NothingToReclaim(dir: Dir, listing: seq<Name>, rules: Rules, locked: set<Name>)
    requires GenBytes(dir, listing, rules, None) == 0
    ensures Reclaimed(dir, listing, rules, locked) == dir
  {}

  class Staging {
    const rules: Rules
    var dir: Dir
    var vault: nat    // size of the recording published in the video's directory; 0 if there is none

    constructor (videoId: string, originals: set<string>, dir: Dir, vault: nat)
      ensures this.rules == RulesFor(videoId, originals) && this.dir == dir && this.vault == vault
    {
      this.rules, this.dir, this.vault := RulesFor(videoId, originals), dir, vault;
    }

    /** The watchdog's sample. */
    method LiveMediaBytes(listing: seq<Name>) returns (total: nat)
      requires IsListing(dir, listing)
      ensures total == MediaBytes(dir, listing, rules)
    {
      total := 0;
      for k := 0 to |listing|
        invariant total == MediaBytes(dir, listing[..k], rules)
      {
        assert listing[..k + 1] == listing[..k] + [listing[k]];
        MediaBytesOfBoth(dir, listing[..k], [listing[k]], rules);
        if Mine(rules, listing[k]) && !IsSidecar(rules, listing[k]) { total := total + dir[listing[k]]; }
      }
      assert listing[..|listing|] == listing;
    }

    /** Renames this attempt's media aside; sidecars, earlier attempts and what cannot be renamed stay put. */
    method PreservePriorAttempt(listing: seq<Name>, now: nat, stuck: set<Name>) returns (preserved: nat)
      requires IsListing(dir, listing)
      requires forall n | n in dir :: n.epoch != Some(now)
      modifies `dir
      ensures dir == Renamed(old(dir), listing, rules, now, stuck)
      ensures SetAside(old(dir), dir, rules, now, stuck)
      ensures preserved == MoveCount(listing, rules, stuck)
    {
      preserved := 0;
      ghost var origin := dir;
      assert listing[0..] == listing;
      for k := 0 to |listing|
        invariant Renamed(dir, listing[k..], rules, now, stuck) == Renamed(origin, listing, rules, now, stuck)
        invariant preserved + MoveCount(listing[k..], rules, stuck) == MoveCount(listing, rules, stuck)
      {
        var n := listing[k];
        assert listing[k..][0] == n && listing[k..][1..] == listing[k + 1..];
        if !(n.epoch.Some? || IsSidecar(rules, n)) && Mine(rules, n) && n !in stuck {
          dir := Rename(dir, n, now);
          preserved := preserved + 1;
        }
      }
      RenamedIsAside(origin, listing, rules, now, stuck);
    }

    method CurrentBytes(listing: seq<Name>) returns (currentBytes: nat)
      requires IsListing(dir, listing)
      ensures currentBytes == GenBytes(dir, listing, rules, None)
    {
      currentBytes := 0;
      for k := 0 to |listing|
        invariant currentBytes == GenBytes(dir, listing[..k], rules, None)
      {
        GenBytesNext(dir, listing, rules, None, k);
        var n := listing[k];
        if Mine(rules, n) && n.epoch.None? && !IsSidecar(rules, n) {
          currentBytes := currentBytes + dir[n];
        }
      }
      assert listing[..|listing|] == listing;
    }

    method GroupPriors(listing: seq<Name>) returns (generations: map<nat, Generation>, order: seq<nat>)
      requires IsListing(dir, listing)
      ensures Grouped(dir, listing, rules, generations, order)
    {
      generations, order := map[], [];
      for k := 0 to |listing|
        invariant Grouped(dir, listing[..k], rules, generations, order)
      {
        GroupOneMore(dir, listing, rules, generations, order, k);
        var n := listing[k];
        if Mine(rules, n) && n.epoch.Some? {
          if n.epoch.value !in generations { order := order + [n.epoch.value]; }
          generations := WithFile(dir, rules, generations, n);
        }
      }
      assert listing[..|listing|] == listing;
    }

    /**
     * Deletes every earlier attempt whose recordings weigh no more than the current one's.
     * Nothing is deleted before the current attempt has recorded something.
     */
    method ReclaimSupersededPriors(listing: seq<Name>, locked: set<Name>) returns (reclaimed: nat)
      requires IsListing(dir, listing)
      modifies `dir
      ensures dir == Reclaimed(old(dir), listing, rules, locked)
      ensures reclaimed + AllBytes(dir, listing) == AllBytes(old(dir), listing)
    {
      reclaimed := 0;
      ghost var origin := dir;
      var currentBytes := CurrentBytes(listing);
      if currentBytes == 0 {
        NothingToReclaim(origin, listing, rules, locked);
        return 0;
      }
      var generations, order := GroupPriors(listing);
      DeletedIsReclaimed(origin, listing, rules, locked, generations, order);
      assert order[0..] == order;
      for k := 0 to |order|
        invariant Deleted(dir, generations, order[k..], currentBytes, locked) ==
          Reclaimed(origin, listing, rules, locked)
        invariant reclaimed + AllBytes(dir, listing) == AllBytes(origin, listing)
      {
        assert order[k..][0] == order[k] && order[k..][1..] == order[k + 1..];
        var gen := generations[order[k]];
        if Doomed(gen, currentBytes) {
          var bytes := DeleteAll(gen.files, listing, locked);
          reclaimed := reclaimed + bytes;
        }
      }
    }

    method DeleteAll(files: set<Name>, listing: seq<Name>, locked: set<Name>) returns (bytes: nat)
      requires forall i, j | 0 <= i < j < |listing| :: listing[i] != listing[j]
      requires forall n | n in files :: n in listing
      modifies `dir
      ensures dir == old(dir) - (files - locked)
      ensures bytes + AllBytes(dir, listing) == AllBytes(old(dir), listing)
    {
      bytes := 0;
      var todo := files;
      while todo != {}
        invariant todo <= files
        invariant dir == old(dir) - (files - todo - locked)
        invariant bytes + AllBytes(dir, listing) == AllBytes(old(dir), listing)
        decreases |todo|
      {
        var n :| n in todo;
        todo := todo - {n};
        if n !in locked && n in dir {
          DeletingOne(dir, listing, n);
          bytes := bytes + dir[n];
          dir := dir - {n};
        }
      }
    }

    /** The largest recording across all attempts, and the fresh sidecars worth keeping. */
    method ResolveArtifacts(listing: seq<Name>) returns (r: Artifacts)
      requires IsListing(dir, listing)
      ensures IsLargest(dir, rules, r.media)
      ensures r.sidecars == Sidecars(listing, rules)
    {
      var media: Option<Name> := None;
      var sidecars := [];
      for k := 0 to |listing|
        invariant sidecars == Sidecars(listing[..k], rules)
        invariant media.Some? ==> media.value in dir && Media(rules, media.value) && dir[media.value] > 0
        invariant forall n | n in listing[..k] && Media(rules, n) ::
            dir[n] <= if media.Some? then dir[media.value] else 0
      {
        var n := listing[k];
        assert n in listing && listing[..k + 1] == listing[..k] + [n];
        assert listing[..k + 1][..k] == listing[..k];
        if Mine(rules, n) {
          if IsSidecar(rules, n) {
            if KindIn(rules, n) == Publishable && n.epoch.None? { sidecars := sidecars + [n]; }
          } else if dir[n] > 0 && (media.None? || dir[n] > dir[media.value]) {
            media := Some(n);
          }
        }
      }
      assert listing[..|listing|] == listing;
      r := Artifacts(media, sidecars);
    }

    /** Moves a largest recording over whatever was published before, and wipes the directory. */
    method Publish(listing: seq<Name>) returns (media: Option<Name>)
      requires IsListing(dir, listing)
      modifies `dir, `vault
      ensures IsLargest(old(dir), rules, media)
      ensures dir == map[] && vault == if media.Some? then old(dir)[media.value] else old(vault)
    {
      var artifacts := ResolveArtifacts(listing);
      media := artifacts.media;
      if media.Some? { vault := dir[media.value]; }
      dir := map[];
    }
  }
}
