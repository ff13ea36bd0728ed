/**
 * Gap-based priority allocation: lower runs first, neighbours keep a gap so that a reorder
 * usually rewrites one row.
 */
module Priority {
  import opened Domain

  const PRIORITY_START := 1_048_576
  const PRIORITY_GAP := 16

  /** Largest row count whose renumber grid fits below BULLMQ_PRIORITY_MAX. */
  const GRID_CAPACITY := 65_537

  /** Exhausted = PriorityExhaustedError, OutOfRange = RangeError. */
  datatype Slot = Slot(at: int) | Exhausted | OutOfRange

  function TailPriority(currentMax: Option<int>): Slot {
    match currentMax
    case None => Slot(PRIORITY_START)
    case Some(max) =>
      if max < 1 then OutOfRange
      else if max + PRIORITY_GAP > BULLMQ_PRIORITY_MAX then Exhausted
      else Slot(max + PRIORITY_GAP)
  }

  function HeadPriority(currentMin: Option<int>): Slot {
    match currentMin
    case None => Slot(PRIORITY_START)
    case Some(min) =>
      if min < 1 then OutOfRange
      else if min - PRIORITY_GAP < 1 then Exhausted
      else Slot(min - PRIORITY_GAP)
  }

  function MidpointPriority(lower: int, upper: int): Slot {
    if lower < 1 || upper < 1 || upper < lower then OutOfRange
    else if upper - lower < 2 then Exhausted
    else Slot((lower + upper) / 2)
  }

  /** The renumber grid; None when its last slot would pass BULLMQ_PRIORITY_MAX. */
  function RenumberedPriorities(count: nat): Option<seq<int>> {
    if count > 0 && PRIORITY_START + (count - 1) * PRIORITY_GAP > BULLMQ_PRIORITY_MAX then None
    else Some(seq(count, i => PRIORITY_START + i * PRIORITY_GAP))
  }

  // -------------------------------------------------------- nested insertions --

  function Pow2(k: nat): nat {
    if k == 0 then 1 else 2 * Pow2(k - 1)
  }

  /**
   * Insert between lower and upper, then again on one side of the row just inserted, once
   * per choice: true goes on above it, false below it.
   */
  predicate Nests(lower: int, upper: int, choices: seq<bool>)
    decreases |choices|
  {
    choices == [] ||
    (var mid := MidpointPriority(lower, upper);
     mid.Slot? &&
     if choices[0] then Nests(mid.at, upper, choices[1..]) else Nests(lower, mid.at, choices[1..]))
  }

  lemma {:induction false} WideGapNests(lower: int, upper: int, choices: seq<bool>)
    requires 1 <= lower && Pow2(|choices|) <= upper - lower
    ensures Nests(lower, upper, choices)
    decreases |choices|
  {
    if choices != [] {
      var mid := (lower + upper) / 2;
      if choices[0] { WideGapNests(mid, upper, choices[1..]); } else { WideGapNests(lower, mid, choices[1..]); }
    }
  }

  function AlwaysBelow(k: nat): (choices: seq<bool>)
    ensures |choices| == k
  {
    seq(k, _ => false)
  }

  lemma {:induction false} NestingBelowNeedsGap(lower: int, upper: int, k: nat)
    requires 1 <= lower <= upper && k > 0 && Nests(lower, upper, AlwaysBelow(k))
    ensures Pow2(k) <= upper - lower
  {
    assert AlwaysBelow(k)[1..] == AlwaysBelow(k - 1);
    if k > 1 { NestingBelowNeedsGap(lower, (lower + upper) / 2, k - 1); }
  }

  /**
   * A gap admits k nested insertions whichever side is chosen each time if and only if it
   * is at least 2^k; a fresh gap of 16 therefore admits 4 and no more.
   */
  lemma NestedInsertions(lower: int, upper: int, k: nat)
    requires 1 <= lower < upper
    ensures (forall choices: seq<bool> :: |choices| == k ==> Nests(lower, upper, choices)) <==>
            Pow2(k) <= upper - lower
  {
    if Pow2(k) <= upper - lower {
      forall choices: seq<bool> | |choices| == k ensures Nests(lower, upper, choices) {
        WideGapNests(lower, upper, choices);
      }
    } else if k > 0 && Nests(lower, upper, AlwaysBelow(k)) {
      NestingBelowNeedsGap(lower, upper, k);
    }
  }

  lemma FreshGapAdmitsFour(lower: int)
    requires 1 <= lower
    ensures forall choices: seq<bool> :: |choices| == 4 ==> Nests(lower, lower + PRIORITY_GAP, choices)
    ensures exists choices: seq<bool> :: |choices| == 5 && !Nests(lower, lower + PRIORITY_GAP, choices)
  {
    assert Pow2(4) == 16 && Pow2(5) == 32;
    NestedInsertions(lower, lower + PRIORITY_GAP, 4);
    NestedInsertions(lower, lower + PRIORITY_GAP, 5);
  }

  /**
   * The ends: a slot behind the last row, or before the first, exists exactly while it stays
   * within BullMQ's range, and leaves room for four nested insertions and not for every five.
   */
  lemma EndSlotsAreFresh(last: int, first: int)
    requires 1 <= last <= BULLMQ_PRIORITY_MAX && 1 <= first <= BULLMQ_PRIORITY_MAX
    ensures TailPriority(Some(last)).Slot? <==> last <= BULLMQ_PRIORITY_MAX - 16
    ensures HeadPriority(Some(first)).Slot? <==> first >= 17
    ensures TailPriority(Some(last)).Slot? ==>
      (forall choices: seq<bool> :: |choices| == 4 ==> Nests(last, TailPriority(Some(last)).at, choices)) &&
      (exists choices: seq<bool> :: |choices| == 5 && !Nests(last, TailPriority(Some(last)).at, choices))
    ensures HeadPriority(Some(first)).Slot? ==>
      (forall choices: seq<bool> :: |choices| == 4 ==> Nests(HeadPriority(Some(first)).at, first, choices)) &&
      (exists choices: seq<bool> :: |choices| == 5 && !Nests(HeadPriority(Some(first)).at, first, choices))
  {
    FreshGapAdmitsFour(last);
    if first >= 17 { FreshGapAdmitsFour(first - 16); }
  }
}
