/** The live-scan tick: a capped batch of due channels, oldest due first, stamped either way. */
module LiveScan {
  import opened Domain

  type ChannelId = nat

  const BATCH_LIMIT := 50
  const DENSE_INTERVAL_MS := 45_000
  const DORMANT_INTERVAL_MS := 600_000
  const DENSE_WINDOW_MS := 7 * 24 * 60 * 60 * 1000

  datatype Channel = Channel(watched: bool, nextPoll: Option<int>, lastLive: Option<int>)

  type Channels = map<ChannelId, Channel>

  function LivePollInterval(lastLive: Option<int>, now: int): (ms: int)
    ensures ms > 0
  {
    if lastLive.Some? && now - lastLive.value <= DENSE_WINDOW_MS then DENSE_INTERVAL_MS else DORMANT_INTERVAL_MS
  }

  predicate Due(c: Channel, now: int) {
    c.watched && (c.nextPoll.None? || c.nextPoll.value <= now)
  }

  /** a is polled no later than b: never-polled channels come first. */
  predicate NotAfter(a: Option<int>, b: Option<int>) {
    a.None? || (b.Some? && a.value <= b.value)
  }

  /** What the capped query may return; channels due at the same instant come in any order. */
  ghost predicate IsBatch(channels: Channels, now: int, batch: seq<ChannelId>) {
    && |batch| <= BATCH_LIMIT
    && (forall i | i in batch :: i in channels && Due(channels[i], now))
    && (forall a, b | 0 <= a < b < |batch| :: batch[a] != batch[b])
    && (forall i | i in channels && Due(channels[i], now) && i !in batch ::
          |batch| == BATCH_LIMIT &&
          forall j | j in batch && j in channels :: NotAfter(channels[j].nextPoll, channels[i].nextPoll))
  }

  function Stamp(c: Channel, now: int): Channel {
    c.(nextPoll := Some(now + LivePollInterval(c.lastLive, now)))
  }

  function Stamped(channels: Channels, batch: seq<ChannelId>, now: int): Channels {
    map i | i in channels :: if i in batch then Stamp(channels[i], now) else channels[i]
  }

  function SetOf(s: seq<ChannelId>): set<ChannelId> {
    set i | i in s
  }

  /** The stamps, one channel after the other. */
  function Polled(channels: Channels, batch: seq<ChannelId>, now: int): Channels
    decreases |batch|
  {
    if batch == [] then channels
    else
      var i := batch[0];
      Polled(if i in channels then channels[i := Stamp(channels[i], now)] else channels, batch[1..], now)
  }

  /** How many of the batch have no probe yet. */
  function Unprobed(batch: seq<ChannelId>, probes: set<ChannelId>): nat
    decreases |batch|
  {
    if batch == [] then 0
    else (if batch[0] in probes then 0 else 1) + Unprobed(batch[1..], probes + {batch[0]})
  }

  lemma {:induction false} PolledAt(channels: Channels, batch: seq<ChannelId>, now: int, i: ChannelId)
    requires forall a, b | 0 <= a < b < |batch| :: batch[a] != batch[b]
    ensures var r := Polled(channels, batch, now);
      (i in r <==> i in channels) && (i in r ==> r[i] == if i in batch then Stamp(channels[i], now) else channels[i])
    decreases |batch|
  {
    if batch != [] {
      var j, rest := batch[0], batch[1..];
      assert j !in rest && (i in batch <==> i == j || i in rest);
      PolledAt(if j in channels then channels[j := Stamp(channels[j], now)] else channels, rest, now, i);
    }
  }

  lemma PolledIsStamped(channels: Channels, batch: seq<ChannelId>, now: int)
    requires forall a, b | 0 <= a < b < |batch| :: batch[a] != batch[b]
    ensures Polled(channels, batch, now) == Stamped(channels, batch, now)
  {
    forall i ensures i in Polled(channels, batch, now) <==> i in channels { PolledAt(channels, batch, now, i); }
    forall i | i in channels ensures Polled(channels, batch, now)[i] == Stamped(channels, batch, now)[i] {
      PolledAt(channels, batch, now, i);
    }
  }

  class Scheduler {
    var channels: Channels
    var probes: set<ChannelId>     // channels with a QUEUED or RUNNING probe

    constructor (channels: Channels)
      ensures this.channels == channels && probes == {}
    {
      this.channels, probes := channels, {};
    }

    /** Every channel of the batch gets a probe unless it has one, and is stamped either way. */
    method Scan(now: int, due: seq<ChannelId>) returns (created: nat)
      requires IsBatch(channels, now, due)
      modifies this
      ensures channels == Stamped(old(channels), due, now)
      ensures forall i :: i in probes <==> i in old(probes) || i in due
      ensures created == Unprobed(due, old(probes))
    {
      PolledIsStamped(channels, due, now);
      created := PollAll(now, due);
    }

    method PollAll(now: int, due: seq<ChannelId>) returns (created: nat)
      modifies this
      ensures channels == Polled(old(channels), due, now)
      ensures forall i :: i in probes <==> i in old(probes) || i in due
      ensures created == Unprobed(due, old(probes))
    {
      created := 0;
      assert due[0..] == due;
      for k := 0 to |due|
        invariant Polled(channels, due[k..], now) == Polled(old(channels), due, now)
        invariant forall i :: i in probes <==> i in old(probes) || i in due[..k]
        invariant created + Unprobed(due[k..], probes) == Unprobed(due, old(probes))
      {
        var i := due[k];
        assert due[k..][0] == i && due[k..][1..] == due[k + 1..] && due[..k + 1] == due[..k] + [i];
        if i !in probes { created := created + 1; }
        probes := probes + {i};
        if i in channels { channels := channels[i := Stamp(channels[i], now)]; }
      }
      assert due[..|due|] == due;
    }
  }

  // ------------------------------------------------------------------- fairness --

  datatype Event =
    | Tick(now: int, batch: seq<ChannelId>)
    | Restamp(channel: ChannelId, at: int)      // probe backoff, detection, settled session, toggle on
    | Unwatch(channel: ChannelId)

  function Next(channels: Channels, e: Event): Channels {
    match e
    case Tick(now, batch) => Stamped(channels, batch, now)
    case Restamp(i, at) =>
      if i in channels then channels[i := channels[i].(watched := true, nextPoll := Some(at))] else channels
    case Unwatch(i) =>
      if i in channels then channels[i := channels[i].(watched := false, nextPoll := None)] else channels
  }

  /** c waits: it is watched and due since key, and nothing but a tick stamps it. */
  ghost predicate Waiting(channels: Channels, c: ChannelId, key: Option<int>) {
    c in channels && channels[c].watched && channels[c].nextPoll == key
  }

  /** The clock has passed c's key, so every restamp of another channel lands behind it. */
  ghost predicate LandsBehind(channels: Channels, c: ChannelId, key: Option<int>, e: Event) {
    match e
    case Tick(now, batch) => IsBatch(channels, now, batch) && (key.Some? ==> key.value <= now)
    case Restamp(i, at) => i != c && (key.Some? ==> key.value < at)
    case Unwatch(i) => i != c
  }

  predicate Picks(e: Event, c: ChannelId) {
    e.Tick? && c in e.batch
  }

  /** What happens up to the tick that picks c; nothing is asked of what comes later. */
  ghost predicate IsHistory(channels: Channels, c: ChannelId, key: Option<int>, events: seq<Event>)
    decreases |events|
  {
    events == [] ||
    (LandsBehind(channels, c, key, events[0]) &&
     (Picks(events[0], c) || IsHistory(Next(channels, events[0]), c, key, events[1..])))
  }

  /** The channels that may be picked before c. */
  function Ahead(channels: Channels, c: ChannelId, key: Option<int>): set<ChannelId> {
    set i | i in channels && i != c && channels[i].watched && NotAfter(channels[i].nextPoll, key)
  }

  function TicksWithout(c: ChannelId, events: seq<Event>): nat {
    if events == [] || Picks(events[0], c) then 0
    else (if events[0].Tick? then 1 else 0) + TicksWithout(c, events[1..])
  }

  lemma {:induction false} DistinctCount(s: seq<ChannelId>)
    requires forall a, b | 0 <= a < b < |s| :: s[a] != s[b]
    ensures |SetOf(s)| == |s|
  {
    if s != [] {
      var init, last := s[..|s| - 1], s[|s| - 1];
      DistinctCount(init);
      assert SetOf(s) == SetOf(init) + {last} && last !in SetOf(init);
    }
  }

  /** A tick that passes c over takes 50 channels out of its way. */
  lemma TickClearsFifty(channels: Channels, c: ChannelId, key: Option<int>, now: int, batch: seq<ChannelId>)
    requires Waiting(channels, c, key) && LandsBehind(channels, c, key, Tick(now, batch)) && c !in batch
    ensures |Ahead(channels, c, key)| >= BATCH_LIMIT
    ensures |Ahead(Stamped(channels, batch, now), c, key)| <= |Ahead(channels, c, key)| - BATCH_LIMIT
  {
    DistinctCount(batch);
    var ahead, ahead' := Ahead(channels, c, key), Ahead(Stamped(channels, batch, now), c, key);
    assert Due(channels[c], now);
    assert SetOf(batch) <= ahead;
    assert ahead' <= ahead - SetOf(batch);
    Subset(SetOf(batch), ahead);
    Subset(ahead', ahead - SetOf(batch));
  }

  lemma {:induction false} Subset(a: set<ChannelId>, b: set<ChannelId>)
    requires a <= b
    ensures |a| <= |b| && |b - a| == |b| - |a|
  {
    assert b == a + (b - a);
  }

  /**
   * A due channel with r channels ahead of it is passed over by at most r / 50 ticks,
   * however the others are polled, backed off, settled or switched off meanwhile.
   */
  lemma {:induction false} ScanIsFair(channels: Channels, c: ChannelId, key: Option<int>, events: seq<Event>)
    requires Waiting(channels, c, key) && IsHistory(channels, c, key, events)
    ensures TicksWithout(c, events) * BATCH_LIMIT <= |Ahead(channels, c, key)|
    decreases |events|
  {
    if events != [] {
      var e := events[0];
      var next := Next(channels, e);
      if Picks(e, c) {
      } else if e.Tick? {
        TickClearsFifty(channels, c, key, e.now, e.batch);
        ScanIsFair(next, c, key, events[1..]);
      } else {
        Subset(Ahead(next, c, key), Ahead(channels, c, key));
        ScanIsFair(next, c, key, events[1..]);
      }
    }
  }

  function Ticks(events: seq<Event>): nat {
    if events == [] then 0 else (if events[0].Tick? then 1 else 0) + Ticks(events[1..])
  }

  lemma {:induction false} UnpickedTicksCount(c: ChannelId, events: seq<Event>)
    requires forall e | e in events :: !Picks(e, c)
    ensures TicksWithout(c, events) == Ticks(events)
  {
    if events != [] {
      assert events[0] in events && forall e | e in events[1..] :: e in events;
      UnpickedTicksCount(c, events[1..]);
    }
  }

  /** So one of any floor(r / 50) + 1 ticks picks it. */
  lemma StampedInTime(channels: Channels, c: ChannelId, key: Option<int>, events: seq<Event>)
    requires Waiting(channels, c, key) && IsHistory(channels, c, key, events)
    requires Ticks(events) >= |Ahead(channels, c, key)| / BATCH_LIMIT + 1
    ensures exists e | e in events :: Picks(e, c)
  {
    ScanIsFair(channels, c, key, events);
    if forall e | e in events :: !Picks(e, c) { UnpickedTicksCount(c, events); }
  }
}
