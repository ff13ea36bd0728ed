/**
 * The login rate limiter: one token bucket per key in a bounded map. A bucket's content is
 * counted in milliseconds of refill: one token is worth refillIntervalMs of it, so that
 * refilling adds the elapsed time and the arithmetic is exact.
 */
module RateLimiter {
  import opened Domain

  type Key = string

  datatype Bucket = Bucket(level: real, last: real)

  type Buckets = map<Key, Bucket>

  /** full is capacity * interval: the content of a bucket that holds capacity tokens. */
  datatype Config = Config(full: real, interval: real, maxTracked: nat)

  function Options(capacity: nat, refillIntervalMs: real, maxTracked: nat): Config {
    Config(capacity as real * refillIntervalMs, refillIntervalMs, maxTracked)
  }

  ghost predicate ValidConfig(c: Config) {
    0.0 < c.interval <= c.full
  }

  lemma OptionsAreValid(capacity: nat, refillIntervalMs: real, maxTracked: nat)
    requires capacity >= 1 && refillIntervalMs > 0.0
    ensures ValidConfig(Options(capacity, refillIntervalMs, maxTracked))
  {
    assert (capacity as real - 1.0) * refillIntervalMs >= 0.0;
  }

  datatype Answer = Allowed | Limited | Dropped

  function Refilled(c: Config, b: Option<Bucket>, now: real): real {
    match b
    case None => c.full
    case Some(bucket) =>
      var elapsed := if now - bucket.last > 0.0 then now - bucket.last else 0.0;
      if bucket.level + elapsed < c.full then bucket.level + elapsed else c.full
  }

  /** What a key's bucket would hold at the given time. */
  function Level(c: Config, bs: Buckets, key: Key, now: real): real {
    Refilled(c, Lookup(bs, key), now)
  }

  function Swept(c: Config, bs: Buckets, now: real): Buckets {
    map k | k in bs && Refilled(c, Some(bs[k]), now) < c.full :: bs[k]
  }

  /** One attempt as a function of the map: the answer, and the map afterwards. */
  function Attempt(c: Config, bs: Buckets, key: Key, now: real): (Answer, Buckets) {
    var bs' := if key !in bs && |bs| >= c.maxTracked then Swept(c, bs, now) else bs;
    if key !in bs && |bs'| >= c.maxTracked then (Dropped, bs') else Take(c, bs', key, now)
  }

  function Take(c: Config, bs: Buckets, key: Key, now: real): (Answer, Buckets) {
    var level := Level(c, bs, key, now);
    if level >= c.interval then (Allowed, bs[key := Bucket(level - c.interval, now)])
    else (Limited, bs[key := Bucket(level, now)])
  }

  class LoginRateLimiter {
    const config: Config
    var buckets: Buckets

    constructor (config: Config)
      ensures this.config == config && buckets == map[]
    {
      this.config := config;
      buckets := map[];
    }

    method Sweep(now: real)
      modifies this
      ensures buckets == Swept(config, old(buckets), now)
    {
      var keys := buckets.Keys;
      while keys != {}
        invariant keys <= old(buckets).Keys
        invariant buckets == map k | k in old(buckets) &&
          (k in keys || Refilled(config, Some(old(buckets)[k]), now) < config.full) :: old(buckets)[k]
        decreases |keys|
      {
        var k :| k in keys;
        keys := keys - {k};
        if Refilled(config, Some(buckets[k]), now) >= config.full { buckets := buckets - {k}; }
      }
    }

    /** At capacity an untracked key is denied without being inserted. */
    method Allow(key: Key, now: real) returns (allowed: bool)
      modifies this
      ensures allowed == Attempt(config, old(buckets), key, now).0.Allowed?
      ensures buckets == Attempt(config, old(buckets), key, now).1
    {
      var bucket := Lookup(buckets, key);
      if bucket.None? && |buckets| >= config.maxTracked {
        Sweep(now);
        if |buckets| >= config.maxTracked { return false; }
        bucket := None;
      }
      var level := Refilled(config, bucket, now);
      allowed := level >= config.interval;
      if allowed { level := level - config.interval; }
      assert bucket == Lookup(buckets, key);
      buckets := buckets[key := Bucket(level, now)];
    }
  }

  // --------------------------------------------------------------------- histories --

  datatype Try = Try(key: Key, at: real)

  function After(c: Config, bs: Buckets, tries: seq<Try>): Buckets
    decreases |tries|
  {
    if tries == [] then bs else After(c, Attempt(c, bs, tries[0].key, tries[0].at).1, tries[1..])
  }

  function Answers(c: Config, bs: Buckets, tries: seq<Try>): (answers: seq<Answer>)
    ensures |answers| == |tries|
    decreases |tries|
  {
    if tries == [] then []
    else
      var r := Attempt(c, bs, tries[0].key, tries[0].at);
      [r.0] + Answers(c, r.1, tries[1..])
  }

  ghost predicate Ordered(tries: seq<Try>, from: real, to: real)
    decreases |tries|
  {
    if tries == [] then from <= to else from <= tries[0].at && Ordered(tries[1..], tries[0].at, to)
  }

  /** Buckets were last written no later than now and hold no more than the capacity. */
  ghost predicate Sane(c: Config, bs: Buckets, now: real) {
    forall k | k in bs :: bs[k].last <= now && 0.0 <= bs[k].level <= c.full
  }

  lemma AttemptStaysSane(c: Config, bs: Buckets, key: Key, now: real)
    requires ValidConfig(c) && Sane(c, bs, now)
    ensures Sane(c, Attempt(c, bs, key, now).1, now)
  {
    if key in bs { RefillBounds(c, bs[key], now); }
  }

  lemma RefillBounds(c: Config, b: Bucket, now: real)
    requires ValidConfig(c) && b.last <= now && 0.0 <= b.level <= c.full
    ensures b.level <= Refilled(c, Some(b), now) <= c.full
  {}

  // -------------------------------------------------------------------- bounded map --

  /** The map never outgrows its bound. */
  lemma {:induction false} MapStaysBounded(c: Config, bs: Buckets, tries: seq<Try>)
    requires |bs| <= c.maxTracked
    ensures |After(c, bs, tries)| <= c.maxTracked
    decreases |tries|
  {
    if tries != [] {
      SweptShrinks(c, bs, tries[0].at);
      MapStaysBounded(c, Attempt(c, bs, tries[0].key, tries[0].at).1, tries[1..]);
    }
  }

  lemma SweptShrinks(c: Config, bs: Buckets, now: real)
    ensures Swept(c, bs, now).Keys <= bs.Keys && |Swept(c, bs, now)| <= |bs|
  {
    SubsetCount(Swept(c, bs, now).Keys, bs.Keys);
  }

  lemma SubsetCount(a: set<Key>, b: set<Key>)
    requires a <= b
    ensures |a| <= |b|
  {
    assert b == a + (b - a);
  }

  // ------------------------------------------------------------------- window bound --

  /** A bucket gains no more than the time that passes. */
  lemma RefillRate(c: Config, b: Option<Bucket>, now: real, later: real)
    requires ValidConfig(c) && now <= later && (b.Some? ==> b.value.last <= now)
    ensures Refilled(c, b, later) <= Refilled(c, b, now) + (later - now)
    ensures Refilled(c, b, now) <= Refilled(c, b, later)
  {}

  /** A sweep forgets nothing: a key without a bucket has a full one. */
  lemma SweepIsInvisible(c: Config, bs: Buckets, key: Key, now: real, later: real)
    requires ValidConfig(c) && Sane(c, bs, now) && now <= later
    ensures Level(c, Swept(c, bs, now), key, later) == Level(c, bs, key, later)
  {
    if key in bs && key !in Swept(c, bs, now) { RefillRate(c, Some(bs[key]), now, later); }
  }

  lemma AttemptSpends(c: Config, bs: Buckets, tried: Key, now: real, key: Key)
    requires ValidConfig(c) && Sane(c, bs, now)
    ensures var r := Attempt(c, bs, tried, now);
      Level(c, r.1, key, now) == Level(c, bs, key, now) - if r.0.Allowed? && tried == key then c.interval else 0.0
  {
    SweepIsInvisible(c, bs, key, now, now);
    if tried in bs { RefillBounds(c, bs[tried], now); }
  }

  /** How often the key was let through. */
  function AllowedCount(answers: seq<Answer>, tries: seq<Try>, key: Key): nat
    requires |answers| == |tries|
  {
    if tries == [] then 0
    else (if answers[0].Allowed? && tries[0].key == key then 1 else 0) + AllowedCount(answers[1..], tries[1..], key)
  }

  lemma SaneLater(c: Config, bs: Buckets, now: real, later: real)
    requires Sane(c, bs, now) && now <= later
    ensures Sane(c, bs, later)
  {}

  /** One attempt: what was spent plus what is left is covered by what was there and the time that passed. */
  lemma AttemptIsCovered(c: Config, bs: Buckets, t: Try, key: Key, from: real)
    requires ValidConfig(c) && Sane(c, bs, from) && from <= t.at
    ensures var r := Attempt(c, bs, t.key, t.at);
      && Sane(c, r.1, t.at)
      && (if r.0.Allowed? && t.key == key then c.interval else 0.0) + Level(c, r.1, key, t.at)
         <= Level(c, bs, key, from) + (t.at - from)
  {
    SaneLater(c, bs, from, t.at);
    AttemptStaysSane(c, bs, t.key, t.at);
    AttemptSpends(c, bs, t.key, t.at, key);
    RefillRate(c, Lookup(bs, key), from, t.at);
  }

  /** What these answers cost the key. */
  function Spent(answers: seq<Answer>, tries: seq<Try>, key: Key, interval: real): real
    requires |answers| == |tries|
  {
    if tries == [] then 0.0
    else
      (if answers[0].Allowed? && tries[0].key == key then interval else 0.0) +
      Spent(answers[1..], tries[1..], key, interval)
  }

  lemma {:induction false} SpentIsCounted(answers: seq<Answer>, tries: seq<Try>, key: Key, interval: real)
    requires |answers| == |tries|
    ensures Spent(answers, tries, key, interval) == AllowedCount(answers, tries, key) as real * interval
  {
    if tries != [] {
      SpentIsCounted(answers[1..], tries[1..], key, interval);
      var n := AllowedCount(answers[1..], tries[1..], key) as real;
      assert (1.0 + n) * interval == interval + n * interval;
    }
  }

  lemma {:induction false} AllowanceIsSpent(c: Config, bs: Buckets, tries: seq<Try>, key: Key, from: real, to: real)
    requires ValidConfig(c) && Sane(c, bs, from) && Ordered(tries, from, to)
    ensures from <= to && Sane(c, After(c, bs, tries), to)
    ensures Spent(Answers(c, bs, tries), tries, key, c.interval) + Level(c, After(c, bs, tries), key, to) <=
            Level(c, bs, key, from) + (to - from)
    decreases |tries|
  {
    if tries == [] {
      RefillRate(c, Lookup(bs, key), from, to);
      SaneLater(c, bs, from, to);
    } else {
      AttemptIsCovered(c, bs, tries[0], key, from);
      var r := Attempt(c, bs, tries[0].key, tries[0].at);
      AllowanceIsSpent(c, r.1, tries[1..], key, tries[0].at, to);
      assert Answers(c, bs, tries)[1..] == Answers(c, r.1, tries[1..]);
    }
  }

  lemma LevelBounds(c: Config, bs: Buckets, key: Key, now: real)
    requires ValidConfig(c) && Sane(c, bs, now)
    ensures 0.0 <= Level(c, bs, key, now) <= c.full
  {
    if key in bs { RefillBounds(c, bs[key], now); }
  }

  lemma WindowSpent(c: Config, bs: Buckets, tries: seq<Try>, key: Key, from: real, to: real)
    requires ValidConfig(c) && Sane(c, bs, from) && Ordered(tries, from, to)
    ensures Spent(Answers(c, bs, tries), tries, key, c.interval) <= c.full + (to - from)
  {
    AllowanceIsSpent(c, bs, tries, key, from, to);
    LevelBounds(c, bs, key, from);
    LevelBounds(c, After(c, bs, tries), key, to);
  }

  lemma Positive(x: real, y: real)
    requires x > 0.0 && y > 0.0
    ensures x * y > 0.0
  {}

  lemma Divide(n: real, capacity: real, elapsed: real, interval: real)
    requires interval > 0.0 && n * interval <= capacity * interval + elapsed
    ensures n <= capacity + elapsed / interval
  {
    var d := n - capacity - elapsed / interval;
    assert elapsed / interval * interval == elapsed;
    assert d * interval <= 0.0;
    if d > 0.0 {
      Positive(d, interval);
      assert false;
    }
  }

  lemma Counted(answers: seq<Answer>, tries: seq<Try>, key: Key, capacity: nat, elapsed: real, interval: real)
    requires |answers| == |tries| && interval > 0.0
    requires Spent(answers, tries, key, interval) <= capacity as real * interval + elapsed
    ensures AllowedCount(answers, tries, key) as real <= capacity as real + elapsed / interval
  {
    SpentIsCounted(answers, tries, key, interval);
    Divide(AllowedCount(answers, tries, key) as real, capacity as real, elapsed, interval);
  }

  /**
   * In any window of any history, with a clock that does not run backwards, a key is
   * allowed at most capacity + elapsed / refillInterval times.
   */
  lemma WindowBound(c: Config, capacity: nat, bs: Buckets, tries: seq<Try>, key: Key, from: real, to: real)
    requires c == Options(capacity, c.interval, c.maxTracked) && capacity >= 1 && c.interval > 0.0
    requires Sane(c, bs, from) && Ordered(tries, from, to)
    ensures AllowedCount(Answers(c, bs, tries), tries, key) as real <= capacity as real + (to - from) / c.interval
  {
    OptionsAreValid(capacity, c.interval, c.maxTracked);
    WindowSpent(c, bs, tries, key, from, to);
    Counted(Answers(c, bs, tries), tries, key, capacity, to - from, c.interval);
  }

  function Burst(key: Key, at: real, n: nat): seq<Try> {
    if n == 0 then [] else [Try(key, at)] + Burst(key, at, n - 1)
  }

  /** What n tokens are worth. */
  function Worth(interval: real, n: nat): real {
    if n == 0 then 0.0 else interval + Worth(interval, n - 1)
  }

  lemma {:induction false} WorthIsProduct(interval: real, n: nat)
    ensures Worth(interval, n) == n as real * interval
  {
    if n > 0 {
      WorthIsProduct(interval, n - 1);
      assert (1.0 + (n - 1) as real) * interval == interval + (n - 1) as real * interval;
    }
  }

  lemma {:induction false} WorthIsPositive(interval: real, n: nat)
    requires interval > 0.0
    ensures Worth(interval, n) >= 0.0 && (n > 0 ==> Worth(interval, n) >= interval)
  {
    if n > 0 { WorthIsPositive(interval, n - 1); }
  }

  lemma OneAttempt(c: Config, bs: Buckets, key: Key, at: real)
    requires ValidConfig(c) && Sane(c, bs, at) && (key in bs || |bs| < c.maxTracked)
    ensures var r := Attempt(c, bs, key, at);
      && r.0 == (if Level(c, bs, key, at) >= c.interval then Allowed else Limited)
      && Sane(c, r.1, at) && key in r.1
      && Level(c, r.1, key, at) == Level(c, bs, key, at) - if r.0.Allowed? then c.interval else 0.0
  {
    AttemptStaysSane(c, bs, key, at);
    AttemptSpends(c, bs, key, at, key);
  }

  lemma BurstNext(c: Config, bs: Buckets, key: Key, at: real, n: nat)
    ensures var r := Attempt(c, bs, key, at);
      Answers(c, bs, Burst(key, at, n + 1)) == [r.0] + Answers(c, r.1, Burst(key, at, n))
  {
    assert Burst(key, at, n + 1)[1..] == Burst(key, at, n);
  }

  /** Of n attempts at one instant, as many pass as the bucket holds tokens, and they come first. */
  lemma {:induction false} BurstSpendsTokens(c: Config, bs: Buckets, key: Key, at: real, n: nat, tokens: nat)
    requires ValidConfig(c) && Sane(c, bs, at) && (key in bs || |bs| < c.maxTracked)
    requires Level(c, bs, key, at) == Worth(c.interval, tokens)
    ensures var answers := Answers(c, bs, Burst(key, at, n));
      |answers| == n && forall k | 0 <= k < n :: answers[k] == if k < tokens then Allowed else Limited
    decreases n
  {
    if n > 0 {
      OneAttempt(c, bs, key, at);
      WorthIsPositive(c.interval, tokens);
      BurstNext(c, bs, key, at, n - 1);
      BurstSpendsTokens(c, Attempt(c, bs, key, at).1, key, at, n - 1, if tokens > 0 then tokens - 1 else 0);
    }
  }

  /** A key that is not tracked yet gets exactly capacity attempts at once while there is room for it. */
  lemma FreshKeyGetsCapacity(c: Config, capacity: nat, bs: Buckets, key: Key, at: real, n: nat)
    requires c == Options(capacity, c.interval, c.maxTracked) && ValidConfig(c) && Sane(c, bs, at)
    requires key !in bs && |bs| < c.maxTracked
    ensures var answers := Answers(c, bs, Burst(key, at, n));
      |answers| == n && forall k | 0 <= k < n :: answers[k] == if k < capacity then Allowed else Limited
  {
    WorthIsProduct(c.interval, capacity);
    BurstSpendsTokens(c, bs, key, at, n, capacity);
  }

  // -------------------------------------------------------- the unbounded limiter --

  /** The attempts that were not dropped at capacity. */
  function Heard(c: Config, bs: Buckets, tries: seq<Try>): seq<Try>
    decreases |tries|
  {
    if tries == [] then []
    else
      var r := Attempt(c, bs, tries[0].key, tries[0].at);
      (if r.0.Dropped? then [] else [tries[0]]) + Heard(c, r.1, tries[1..])
  }

  function UnboundedAnswers(c: Config, bs: Buckets, tries: seq<Try>): seq<Answer>
    decreases |tries|
  {
    if tries == [] then []
    else
      var r := Take(c, bs, tries[0].key, tries[0].at);
      [r.0] + UnboundedAnswers(c, r.1, tries[1..])
  }

  function Answered(answers: seq<Answer>): seq<Answer> {
    if answers == [] then []
    else (if answers[0].Dropped? then [] else [answers[0]]) + Answered(answers[1..])
  }

  /** Every key has the same tokens in both, now and from now on. */
  ghost predicate SameLevels(c: Config, bs: Buckets, us: Buckets, now: real) {
    forall k: Key, t: real | t >= now :: Level(c, bs, k, t) == Level(c, us, k, t)
  }

  lemma TakeAgrees(c: Config, bs: Buckets, us: Buckets, key: Key, now: real)
    requires SameLevels(c, bs, us, now)
    ensures Take(c, bs, key, now).0 == Take(c, us, key, now).0
    ensures SameLevels(c, Take(c, bs, key, now).1, Take(c, us, key, now).1, now)
  {
    assert Level(c, bs, key, now) == Level(c, us, key, now);
    forall k: Key, t: real | t >= now
      ensures Level(c, Take(c, bs, key, now).1, k, t) == Level(c, Take(c, us, key, now).1, k, t)
    {
      assert Level(c, bs, k, t) == Level(c, us, k, t);
    }
  }

  lemma SweepAgrees(c: Config, bs: Buckets, us: Buckets, now: real)
    requires ValidConfig(c) && Sane(c, bs, now) && SameLevels(c, bs, us, now)
    ensures SameLevels(c, Swept(c, bs, now), us, now)
  {
    forall k: Key, t: real | t >= now ensures Level(c, Swept(c, bs, now), k, t) == Level(c, us, k, t) {
      SweepIsInvisible(c, bs, k, now, t);
    }
  }

  /** A dropped attempt leaves the two in agreement; any other is answered alike. */
  lemma AttemptAgrees(c: Config, bs: Buckets, us: Buckets, key: Key, now: real)
    requires ValidConfig(c) && Sane(c, bs, now) && SameLevels(c, bs, us, now)
    ensures var r := Attempt(c, bs, key, now);
      if r.0.Dropped? then SameLevels(c, r.1, us, now)
      else r.0 == Take(c, us, key, now).0 && SameLevels(c, r.1, Take(c, us, key, now).1, now)
  {
    SweepAgrees(c, bs, us, now);
    TakeAgrees(c, bs, us, key, now);
    TakeAgrees(c, Swept(c, bs, now), us, key, now);
  }

  lemma AgreeLater(c: Config, bs: Buckets, us: Buckets, now: real, later: real)
    requires SameLevels(c, bs, us, now) && now <= later
    ensures SameLevels(c, bs, us, later)
  {}

  lemma AnsweredAfter(a: Answer, rest: seq<Answer>)
    ensures Answered([a] + rest) == (if a.Dropped? then [] else [a]) + Answered(rest)
  {
    assert ([a] + rest)[1..] == rest;
  }

  lemma UnboundedAfter(c: Config, us: Buckets, t: Try, rest: seq<Try>)
    ensures UnboundedAnswers(c, us, [t] + rest) ==
            [Take(c, us, t.key, t.at).0] + UnboundedAnswers(c, Take(c, us, t.key, t.at).1, rest)
  {
    assert ([t] + rest)[1..] == rest;
  }

  /**
   * The bounded limiter answers like one with an unbounded map and no sweeping that is
   * given the same attempts, minus those dropped at capacity.
   */
  lemma {:induction false} BoundIsInvisible(c: Config, bs: Buckets, us: Buckets, tries: seq<Try>, from: real, to: real)
    requires ValidConfig(c) && Sane(c, bs, from) && SameLevels(c, bs, us, from) && Ordered(tries, from, to)
    ensures Answered(Answers(c, bs, tries)) == UnboundedAnswers(c, us, Heard(c, bs, tries))
    decreases |tries|
  {
    if tries != [] {
      var t, rest := tries[0], tries[1..];
      var r := Attempt(c, bs, t.key, t.at);
      SaneLater(c, bs, from, t.at);
      AgreeLater(c, bs, us, from, t.at);
      AttemptStaysSane(c, bs, t.key, t.at);
      AttemptAgrees(c, bs, us, t.key, t.at);
      AnsweredAfter(r.0, Answers(c, r.1, rest));
      var us' := if r.0.Dropped? then us else Take(c, us, t.key, t.at).1;
      BoundIsInvisible(c, r.1, us', rest, t.at, to);
      var heard := Heard(c, r.1, rest);
      UnboundedAfter(c, us, t, heard);
      assert [] + heard == heard && [] + Answered(Answers(c, r.1, rest)) == Answered(Answers(c, r.1, rest));
    }
  }
}
