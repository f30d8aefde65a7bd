/** What the retarget rule promises, and exactly when it keeps it: the clamp to a
    quarter and to four times, and the order of windows, against the 64-bit
    wrap-around of the clamp and of the quotient. */
module Retarget {
  import opened Primitives
  import opened Arithmetic
  import opened Difficulty

  /** The largest quotient a retarget can reach fits in 64 bits, and so does 4 * T. */
  predicate RetargetFits(prev: U64, t: U64) {
    4 * t <= U64_MAX && prev * t / Max(t / 4, 1) <= U64_MAX
  }

  lemma ClampRange(actual: U64, t: U64)
    requires 1 <= t && 4 * t <= U64_MAX
    ensures Max(t / 4, 1) <= ClampedTimespan(actual, t) <= 4 * t
    ensures actual == t ==> ClampedTimespan(actual, t) == t
  {
  }

  lemma {:induction false} FittingQuotient(n: nat, low: nat, c: nat)
    requires 0 < low <= c
    requires n / low <= U64_MAX
    ensures LowU64(n / c) == n / c
  {
    DivAntitone(n, low, c);
  }

  /** With no wrap-around, a retarget is the exact clamped ratio. */
  lemma {:induction false} RetargetExact(prev: U64, actual: U64, blockTime: U64, window: U64)
    requires RetargetFits(prev, TargetTimespan(blockTime, window))
    ensures var t := TargetTimespan(blockTime, window);
      NextDifficulty(prev, actual, blockTime, window) == Max(prev * t / ClampedTimespan(actual, t), 1)
  {
    hide ClampedTimespan, TargetTimespan, LowU64;
    var t := TargetTimespan(blockTime, window);
    ClampRange(actual, t);
    FittingQuotient(prev * t, Max(t / 4, 1), ClampedTimespan(actual, t));
  }

  /** The new difficulty is the clamped ratio exactly when that ratio fits in 64 bits. */
  lemma {:induction false} RetargetExactIff(prev: U64, actual: U64, blockTime: U64, window: U64)
    ensures var t := TargetTimespan(blockTime, window);
      var ratio := Ratio(prev, t, ClampedTimespan(actual, t));
      NextDifficulty(prev, actual, blockTime, window) == Max(ratio, 1) <==> ratio <= U64_MAX
  {
    hide TargetTimespan, ClampedTimespan, Max, LowU64, Ratio;
    var t := TargetTimespan(blockTime, window);
    CutIff(Ratio(prev, t, ClampedTimespan(actual, t)));
  }

  lemma CutIff(n: nat)
    ensures Max(LowU64(n), 1) == Max(n, 1) <==> n <= U64_MAX
  {
  }

  /** The clamp as documented: between a quarter and four times the target. */
  function IntendedClamp(actual: U64, t: U64): nat {
    Max(Min(Max(actual, t / 4), 4 * t), 1)
  }

  ghost predicate ClampAsIntended(t: U64) {
    forall actual: U64 :: ClampedTimespan(actual, t) == IntendedClamp(actual, t)
  }

  /** The clamp is the documented one for every timespan exactly when four times
      the target does not wrap. */
  lemma ClampExactIff(t: U64)
    ensures ClampAsIntended(t) <==> 4 * t <= U64_MAX
  {
    if 4 * t > U64_MAX {
      assert 4 * t % U64_SIZE % 4 == 0;
      assert ClampedTimespan(U64_MAX, t) != IntendedClamp(U64_MAX, t);
    }
  }

  lemma {:induction false} RatioAtMost(prev: nat, t: nat, c: nat, factor: nat)
    requires c > 0 && t <= factor * c
    ensures prev * t / c <= factor * prev
  {
    MulMono(t, factor * c, prev);
    assert prev * (factor * c) == factor * prev * c;
    assert (factor * prev + 1) * c == factor * prev * c + c;
    QuotientAtMost(prev * t, c, factor * prev);
  }

  lemma CutMonotone(small: nat, large: nat)
    requires small <= large && small / U64_SIZE == large / U64_SIZE
    ensures Max(LowU64(small), 1) <= Max(LowU64(large), 1)
  {
  }

  lemma ClampMonotone(fast: U64, slow: U64, t: U64)
    requires fast <= slow
    ensures ClampedTimespan(fast, t) <= ClampedTimespan(slow, t)
  {
  }

  /** How often the 64-bit cast wraps around at a clamped timespan. */
  function Wraps(prev: U64, t: U64, c: nat): nat
    requires c > 0
  {
    Ratio(prev, t, c) / U64_SIZE
  }

  lemma {:induction false} WrapsAntitone(prev: U64, t: U64, c: nat, d: nat)
    requires 0 < c <= d
    ensures Ratio(prev, t, d) <= Ratio(prev, t, c) && Wraps(prev, t, d) <= Wraps(prev, t, c)
  {
    DivAntitone(prev * t, c, d);
  }

  /** Where the cast wraps equally often, a slower window never gives a higher
      difficulty; so in particular where it does not wrap at all. */
  lemma {:induction false} RetargetAntitone(prev: U64, fast: U64, slow: U64, blockTime: U64, window: U64)
    requires fast <= slow
    requires var t := TargetTimespan(blockTime, window);
      Wraps(prev, t, ClampedTimespan(fast, t)) == Wraps(prev, t, ClampedTimespan(slow, t))
    ensures NextDifficulty(prev, slow, blockTime, window) <= NextDifficulty(prev, fast, blockTime, window)
  {
    hide TargetTimespan, LowU64, Max, Ratio;
    var t := TargetTimespan(blockTime, window);
    ClampMonotone(fast, slow, t);
    hide ClampedTimespan;
    WrapsAntitone(prev, t, ClampedTimespan(fast, t), ClampedTimespan(slow, t));
    CutMonotone(Ratio(prev, t, ClampedTimespan(slow, t)), Ratio(prev, t, ClampedTimespan(fast, t)));
  }

  lemma {:induction false} QuarterAtLeast(prev: nat, t: nat, c: nat, quarter: nat)
    requires 0 < c <= 4 * t && 4 * quarter <= prev
    ensures quarter <= prev * t / c
  {
    MulMono(c, 4 * t, quarter);
    MulMono(4 * quarter, prev, t);
    QuotientAtLeast(prev * t, c, quarter);
  }

  lemma ClampAtMost(actual: U64, t: U64)
    requires t >= 1
    ensures ClampedTimespan(0, t) <= t && ClampedTimespan(actual, t) <= 4 * t
    ensures t <= WrapMul(t, 4) ==> ClampedTimespan(t, t) == t
  {
  }

  lemma CutBounds(n: nat)
    ensures 1 <= Max(LowU64(n), 1) <= Max(n, 1)
    ensures n <= U64_MAX ==> Max(LowU64(n), 1) == Max(n, 1)
  {
  }

  /** For every window: the new difficulty is positive and at most the ratio of
      the smallest clamped timespan; if the window's own ratio fits 64 bits it is
      at least a quarter; and a window that took exactly its target time keeps
      the difficulty, as long as the upper clamp did not wrap below the target. */
  lemma {:induction false} RetargetBounds(prev: U64, actual: U64, blockTime: U64, window: U64)
    requires prev >= 1
    ensures var t, d := TargetTimespan(blockTime, window), NextDifficulty(prev, actual, blockTime, window);
      && 1 <= d <= Ratio(prev, t, ClampedTimespan(0, t))
      && (Ratio(prev, t, ClampedTimespan(actual, t)) <= U64_MAX ==> prev / 4 <= d)
      && (actual == t <= WrapMul(t, 4) ==> d == prev)
  {
    hide TargetTimespan, ClampedTimespan, Ratio, LowU64;
    var t := TargetTimespan(blockTime, window);
    var c := ClampedTimespan(actual, t);
    ClampMonotone(0, actual, t);
    ClampAtMost(actual, t);
    WrapsAntitone(prev, t, ClampedTimespan(0, t), c);
    WrapsAntitone(prev, t, ClampedTimespan(0, t), t);
    CutBounds(Ratio(prev, t, c));
    RatioFacts(prev, t, c);
  }

  lemma {:induction false} RatioFacts(prev: U64, t: U64, c: nat)
    requires prev >= 1 && t >= 1 && 1 <= c <= 4 * t
    ensures Ratio(prev, t, t) == prev && prev / 4 <= Ratio(prev, t, c)
  {
    MulDiv(prev, t);
    QuarterAtLeast(prev, t, c, prev / 4);
  }

  // ----- the rule in terms of block time and window -----

  /** The clamped timespan around a target timespan, written out. */
  function Clamp(actual: nat, low: nat, high: nat): nat {
    if actual < low then low else if actual > high then high else actual
  }

  lemma TimespanCases(blockTime: U64, window: U64)
    ensures var product := blockTime * window;
      TargetTimespan(blockTime, window)
      == if product == 0 then 1 else if product > 0xFFFF_FFFF_FFFF_FFFF then 0xFFFF_FFFF_FFFF_FFFF else product
  {
  }

  lemma ClampCases(actual: U64, t: U64)
    requires t >= 1
    ensures 4 * t <= 0xFFFF_FFFF_FFFF_FFFF ==>
      ClampedTimespan(actual, t) == Clamp(actual, if t < 8 then 1 else t / 4, 4 * t)
    ensures t == 0xFFFF_FFFF_FFFF_FFFF ==>
      ClampedTimespan(actual, t) == Clamp(actual, 0x3FFF_FFFF_FFFF_FFFF, 0xFFFF_FFFF_FFFF_FFFC)
  {
  }

  /** The new difficulty for every block time and window whose product, and four
      times it, fit 64 bits; for a product of zero; and for one beyond 64 bits. */
  lemma {:induction false} RetargetInFull(prev: U64, actual: U64, blockTime: U64, window: U64)
    ensures var t, d := blockTime * window, NextDifficulty(prev, actual, blockTime, window);
      && (1 <= t && 4 * t <= 0xFFFF_FFFF_FFFF_FFFF ==>
            d == Max(prev * t / Clamp(actual, if t < 8 then 1 else t / 4, 4 * t) % 0x1_0000_0000_0000_0000, 1))
      && (t == 0 ==> d == Max(prev / Clamp(actual, 1, 4), 1))
      && (t > 0xFFFF_FFFF_FFFF_FFFF ==>
            d == Max(prev * 0xFFFF_FFFF_FFFF_FFFF / Clamp(actual, 0x3FFF_FFFF_FFFF_FFFF, 0xFFFF_FFFF_FFFF_FFFC)
                     % 0x1_0000_0000_0000_0000, 1))
  {
    hide TargetTimespan, ClampedTimespan, Max, Clamp;
    TimespanCases(blockTime, window);
    ClampCases(actual, TargetTimespan(blockTime, window));
    ClampPositive(actual);
    if blockTime * window == 0 {
      DivAntitone(prev, 1, Clamp(actual, 1, 4));
      CutIff(prev / Clamp(actual, 1, 4));
    }
  }

  lemma ClampPositive(actual: nat)
    ensures forall low: nat, high: nat :: 1 <= low <= high ==> low <= Clamp(actual, low, high) <= high
  {
  }

  /** A window that took exactly block time times window keeps every difficulty. */
  lemma {:induction false} OnTimeKeeps(prev: U64, blockTime: U64, window: U64, actual: U64)
    requires prev >= 1 && 1 <= blockTime * window && 4 * (blockTime * window) <= 0xFFFF_FFFF_FFFF_FFFF
    requires actual == blockTime * window
    ensures NextDifficulty(prev, actual, blockTime, window) == prev
  {
    hide TargetTimespan, NextDifficulty;
    TimespanCases(blockTime, window);
    TimesFour(actual);
    RetargetBounds(prev, actual, blockTime, window);
  }

  // ----- exactly when slower windows never raise the difficulty -----

  /** For this parent difficulty, a slower window never gives a higher difficulty. */
  ghost predicate NeverRises(prev: U64, blockTime: U64, window: U64) {
    forall fast: U64, slow: U64 :: fast <= slow ==>
      NextDifficulty(prev, slow, blockTime, window) <= NextDifficulty(prev, fast, blockTime, window)
  }

  /** The last timespan before the cast stops wrapping as often. */
  lemma {:induction false} LastWrap(prev: U64, t: U64, lo: nat, hi: nat) returns (c: nat)
    requires 1 <= lo <= hi && Wraps(prev, t, hi) < Wraps(prev, t, lo)
    ensures lo <= c < hi && Wraps(prev, t, c + 1) == Wraps(prev, t, hi) < Wraps(prev, t, c)
    decreases hi
  {
    hide Wraps;
    if Wraps(prev, t, hi - 1) == Wraps(prev, t, hi) {
      c := LastWrap(prev, t, lo, hi - 1);
    } else {
      WrapsAntitone(prev, t, hi - 1, hi);
      c := hi - 1;
    }
  }

  /** One second more lowers the ratio by less than 2^64 - 1. */
  lemma {:induction false} SmallStep(n: nat, c: nat, bound: nat)
    requires c >= 2 && n / (c + 1) <= bound
    requires bound + c + 1 <= (U64_SIZE - 1) * c
    ensures n / c <= n / (c + 1) + U64_SIZE - 2
  {
    var q := n / (c + 1);
    QuotientBounds(n, c + 1);
    StepProduct(q, c);
    QuotientAtMost(n, c, q + U64_SIZE - 2);
  }

  lemma StepProduct(q: nat, c: nat)
    ensures (q + 1) * (c + 1) == q * c + q + c + 1
    ensures (q + U64_SIZE - 1) * c == q * c + (U64_SIZE - 1) * c
  {
  }

  lemma {:induction false} LongStep(prev: U64, t: U64, c: nat)
    requires c >= 8 && t <= 7 * c
    ensures Ratio(prev, t, c) <= Ratio(prev, t, c + 1) + U64_SIZE - 2
  {
    RatioAtMost(prev, t, c + 1, 7);
    SmallStep(prev * t, c, 7 * prev);
  }

  lemma {:induction false} ShortStep(prev: U64, t: U64, c: nat)
    requires c >= 2 && Ratio(prev, t, c + 1) <= U64_MAX
    ensures Ratio(prev, t, c) <= Ratio(prev, t, c + 1) + U64_SIZE - 2
  {
    SmallStep(prev * t, c, U64_MAX);
  }

  /** From one second to two the ratio halves, and 2^65 - 1 is no multiple of 3, 5 or 7. */
  lemma FirstStep(prev: U64, t: U64)
    requires t <= 7 && U64_SIZE <= Ratio(prev, t, 1) && Ratio(prev, t, 2) <= U64_MAX
    ensures Ratio(prev, t, 1) <= Ratio(prev, t, 2) + U64_SIZE - 1 && Ratio(prev, t, 2) >= 2
  {
    OddMultiple(prev, t);
    assert prev * t / 1 == prev * t;
  }

  lemma OddMultiple(prev: U64, t: U64)
    requires t <= 7
    ensures prev * t != 2 * U64_SIZE - 1
  {
    if t == 0 {
    } else if t == 1 {
    } else if t == 2 {
    } else if t == 3 {
    } else if t == 4 {
    } else if t == 5 {
    } else if t == 6 {
    } else {
      assert t == 7;
    }
  }

  lemma LowRises(large: nat, small: nat)
    requires small / U64_SIZE < large / U64_SIZE && large <= small + U64_SIZE - 1
    requires large <= small + U64_SIZE - 2 || 2 <= small <= U64_MAX
    ensures Max(LowU64(large), 1) < Max(LowU64(small), 1)
  {
  }

  /** At the last wrap one second more raises the difficulty. */
  lemma {:induction false} RisesAfterWrap(prev: U64, t: U64, c: nat)
    requires 1 <= c && t <= 7 * c
    requires Wraps(prev, t, c + 1) < Wraps(prev, t, c)
    requires c < 8 ==> Wraps(prev, t, c + 1) == 0
    ensures Max(LowU64(Ratio(prev, t, c)), 1) < Max(LowU64(Ratio(prev, t, c + 1)), 1)
  {
    hide Ratio, LowU64, Max;
    if c >= 8 {
      LongStep(prev, t, c);
    } else if c >= 2 {
      ShortStep(prev, t, c);
    } else {
      FirstStep(prev, t);
    }
    LowRises(Ratio(prev, t, c), Ratio(prev, t, c + 1));
  }

  /** A timespan between the two clamps stays as it is. */
  lemma ClampInside(c: nat, t: U64)
    requires ClampedTimespan(0, t) <= c <= ClampedTimespan(U64_MAX, t)
    ensures c <= U64_MAX && ClampedTimespan(c, t) == c
  {
  }

  lemma ClampSpan(t: U64)
    requires t >= 1
    ensures ClampedTimespan(0, t) < ClampedTimespan(U64_MAX, t) ==> t <= 7 * ClampedTimespan(0, t)
    ensures 4 * t <= U64_MAX ==> ClampedTimespan(U64_MAX, t) == 4 * t
    ensures ClampedTimespan(0, t) < 8 && ClampedTimespan(0, t) < ClampedTimespan(U64_MAX, t) ==> 4 * t <= U64_MAX
  {
    TimesFour(t);
    hide WrapMul;
  }

  lemma TimesFour(t: U64)
    ensures 4 * t <= U64_MAX ==> WrapMul(t, 4) == 4 * t
  {
  }

  lemma {:induction false} SlowestFits(prev: U64, t: U64)
    requires t >= 1
    ensures Ratio(prev, t, 4 * t) <= U64_MAX
  {
    RatioAtMost(prev, t, 4 * t, 1);
  }

  lemma {:induction false} RisesSomewhere(prev: U64, blockTime: U64, window: U64)
    requires var t := TargetTimespan(blockTime, window);
      Wraps(prev, t, ClampedTimespan(0, t)) != Wraps(prev, t, ClampedTimespan(U64_MAX, t))
    ensures !NeverRises(prev, blockTime, window)
  {
    hide TargetTimespan, ClampedTimespan, LowU64, Max, Ratio, Wraps;
    var t := TargetTimespan(blockTime, window);
    var lo, hi := ClampedTimespan(0, t), ClampedTimespan(U64_MAX, t);
    ClampMonotone(0, U64_MAX, t);
    WrapsAntitone(prev, t, lo, hi);
    ClampSpan(t);
    SlowestFits(prev, t);
    var c := LastWrap(prev, t, lo, hi);
    FitsNoWrap(prev, t, hi);
    RisesAfterWrap(prev, t, c);
    ClampInside(c, t);
    ClampInside(c + 1, t);
    assert !(NextDifficulty(prev, c + 1, blockTime, window) <= NextDifficulty(prev, c, blockTime, window));
  }

  lemma FitsNoWrap(prev: U64, t: U64, c: nat)
    requires c > 0
    ensures Ratio(prev, t, c) <= U64_MAX <==> Wraps(prev, t, c) == 0
  {
  }

  lemma {:induction false} RisesNowhere(prev: U64, fast: U64, slow: U64, blockTime: U64, window: U64)
    requires var t := TargetTimespan(blockTime, window);
      Wraps(prev, t, ClampedTimespan(0, t)) == Wraps(prev, t, ClampedTimespan(U64_MAX, t))
    requires fast <= slow
    ensures NextDifficulty(prev, slow, blockTime, window) <= NextDifficulty(prev, fast, blockTime, window)
  {
    hide TargetTimespan, ClampedTimespan, LowU64, Max, Ratio, Wraps, NextDifficulty;
    var t := TargetTimespan(blockTime, window);
    ClampMonotone(0, fast, t);
    ClampMonotone(fast, slow, t);
    ClampMonotone(slow, U64_MAX, t);
    WrapsAntitone(prev, t, ClampedTimespan(0, t), ClampedTimespan(fast, t));
    WrapsAntitone(prev, t, ClampedTimespan(fast, t), ClampedTimespan(slow, t));
    WrapsAntitone(prev, t, ClampedTimespan(slow, t), ClampedTimespan(U64_MAX, t));
    RetargetAntitone(prev, fast, slow, blockTime, window);
  }

  /** For every parent difficulty and every target timespan: slower windows never
      raise the difficulty exactly if the cast wraps equally often at the smallest
      and at the largest clamped timespan. Unless four times the target wraps, that
      is exactly if the largest ratio fits 64 bits. */
  lemma {:induction false} NeverRisesIff(prev: U64, blockTime: U64, window: U64)
    ensures var t := TargetTimespan(blockTime, window);
      var lo, hi := ClampedTimespan(0, t), ClampedTimespan(U64_MAX, t);
      && (NeverRises(prev, blockTime, window) <==> Wraps(prev, t, lo) == Wraps(prev, t, hi))
      && (4 * t <= U64_MAX ==> (NeverRises(prev, blockTime, window) <==> Ratio(prev, t, lo) <= U64_MAX))
  {
    hide TargetTimespan, ClampedTimespan, NextDifficulty, Ratio, Wraps;
    var t := TargetTimespan(blockTime, window);
    var lo, hi := ClampedTimespan(0, t), ClampedTimespan(U64_MAX, t);
    if Wraps(prev, t, lo) == Wraps(prev, t, hi) {
      forall fast: U64, slow: U64 | fast <= slow
        ensures NextDifficulty(prev, slow, blockTime, window) <= NextDifficulty(prev, fast, blockTime, window)
      {
        RisesNowhere(prev, fast, slow, blockTime, window);
      }
    } else {
      RisesSomewhere(prev, blockTime, window);
    }
    ClampSpan(t);
    SlowestFits(prev, t);
    FitsNoWrap(prev, t, lo);
    FitsNoWrap(prev, t, hi);
  }

  // ----- exactly when the documented factors hold -----

  /** No retarget raises a positive difficulty more than fourfold. */
  ghost predicate AtMostFourfold(blockTime: U64, window: U64) {
    forall prev: U64, actual: U64 :: prev >= 1 ==> NextDifficulty(prev, actual, blockTime, window) <= 4 * prev
  }

  /** No retarget lowers a difficulty below its quarter. */
  ghost predicate AtLeastQuarter(blockTime: U64, window: U64) {
    forall prev: U64, actual: U64 :: NextDifficulty(prev, actual, blockTime, window) >= prev / 4
  }

  lemma CutAtMost(n: nat, bound: nat)
    requires n <= bound && bound >= 1
    ensures Max(LowU64(n), 1) <= bound
  {
  }

  lemma {:induction false} RetargetAtMost(prev: U64, actual: U64, blockTime: U64, window: U64, factor: nat)
    requires prev >= 1 && factor >= 1
    requires var t := TargetTimespan(blockTime, window); t <= factor * ClampedTimespan(0, t)
    ensures NextDifficulty(prev, actual, blockTime, window) <= factor * prev
  {
    hide TargetTimespan, ClampedTimespan, LowU64, Max;
    var t := TargetTimespan(blockTime, window);
    ClampMonotone(0, actual, t);
    MulMono(ClampedTimespan(0, t), ClampedTimespan(actual, t), factor);
    RatioAtMost(prev, t, ClampedTimespan(actual, t), factor);
    MulMono(1, prev, factor);
    CutAtMost(Ratio(prev, t, ClampedTimespan(actual, t)), factor * prev);
  }

  lemma RatioOfSame(t: U64, c: U64)
    requires t >= 1 && c >= 1
    ensures Max(LowU64(Ratio(c, t, c)), 1) == t
  {
    MulDiv(t, c);
    assert c * t == t * c;
  }

  /** A parent difficulty equal to the smallest clamp is raised to the target timespan. */
  lemma {:induction false} RaisedToTarget(blockTime: U64, window: U64)
    ensures var t := TargetTimespan(blockTime, window);
      ClampedTimespan(0, t) <= t && NextDifficulty(ClampedTimespan(0, t), 0, blockTime, window) == t
  {
    hide TargetTimespan;
    var t := TargetTimespan(blockTime, window);
    assert ClampedTimespan(0, t) <= t;
    hide ClampedTimespan;
    RatioOfSame(t, ClampedTimespan(0, t));
  }

  /** The documented upper factor, wrap-arounds included: it holds exactly when
      the smallest clamped timespan is at least a quarter of the target. Unless
      four times the target wraps, that is when the target is below four or a
      multiple of four. */
  lemma {:induction false} FourfoldIff(blockTime: U64, window: U64)
    ensures var t := TargetTimespan(blockTime, window);
      && (AtMostFourfold(blockTime, window) <==> t <= 4 * ClampedTimespan(0, t))
      && (4 * t <= U64_MAX ==> (AtMostFourfold(blockTime, window) <==> t < 4 || t % 4 == 0))
  {
    hide NextDifficulty, TargetTimespan;
    var t := TargetTimespan(blockTime, window);
    if t <= 4 * ClampedTimespan(0, t) {
      forall prev: U64, actual: U64 | prev >= 1
        ensures NextDifficulty(prev, actual, blockTime, window) <= 4 * prev
      {
        RetargetAtMost(prev, actual, blockTime, window, 4);
      }
    } else {
      RaisedToTarget(blockTime, window);
      var low: U64 := ClampedTimespan(0, t);
      assert !(NextDifficulty(low, 0, blockTime, window) <= 4 * low);
    }
  }

  /** Unless four times the target wraps, no difficulty rises more than sevenfold. */
  lemma {:induction false} AtMostSevenfold(prev: U64, actual: U64, blockTime: U64, window: U64)
    requires prev >= 1 && 4 * TargetTimespan(blockTime, window) <= U64_MAX
    ensures NextDifficulty(prev, actual, blockTime, window) <= 7 * prev
  {
    hide NextDifficulty, TargetTimespan;
    RetargetAtMost(prev, actual, blockTime, window, 7);
  }

  lemma {:induction false} RetargetFactors(prev: U64, actual: U64, blockTime: U64, window: U64)
    requires prev >= 1
    ensures var t, d := TargetTimespan(blockTime, window), NextDifficulty(prev, actual, blockTime, window);
      4 * t <= U64_MAX ==> d <= 7 * prev && (t % 4 == 0 ==> d <= 4 * prev)
  {
    hide NextDifficulty, TargetTimespan, ClampedTimespan;
    if 4 * TargetTimespan(blockTime, window) <= U64_MAX {
      AtMostSevenfold(prev, actual, blockTime, window);
      FourfoldIff(blockTime, window);
    }
  }

  /** The factor seven is reached: seven seconds wanted, none taken. */
  lemma SevenfoldExample()
    ensures NextDifficulty(1000, 0, 7, 1) == 7 * 1000
  {
    assert TargetTimespan(7, 1) == 7;
    assert ClampedTimespan(0, 7) == 1;
  }

  lemma {:induction false} FirstCutQuotient(e: nat, t: nat, c: nat)
    requires 0 < c && 2 * c <= t <= 7 * c
    ensures e <= 8 * e * c / t <= 4 * e
  {
    MulMono(t, 8 * c, e);
    assert e * (8 * c) == 8 * e * c;
    QuotientAtLeast(8 * e * c, t, e);
    MulMono(2 * c, t, 4 * e);
    assert 4 * e * (2 * c) == 8 * e * c;
    assert (4 * e + 1) * t == 4 * e * t + t;
    QuotientAtMost(8 * e * c, t, 4 * e);
  }

  lemma {:induction false} FirstCutRatio(s: nat, t: nat, c: nat)
    requires 0 < c && 0 < t <= 7 * c
    ensures s <= (s * c / t + 1) * t / c <= s + 7
  {
    var q := s * c / t;
    QuotientBounds(s * c, t);
    QuotientAtLeast((q + 1) * t, c, s);
    assert (q + 1) * t == q * t + t;
    assert (s + 8) * c == s * c + 8 * c;
    QuotientAtMost((q + 1) * t, c, s + 7);
  }

  /** The first difficulty whose ratio no longer fits 64 bits keeps at most 7 of it. */
  lemma {:induction false} FirstCut(t: nat, c: nat)
    requires 0 < c && 2 * c <= t <= 7 * c
    ensures var prev := U64_SIZE * c / t + 1;
      prev <= U64_MAX && prev / 4 > 7 && U64_SIZE <= prev * t / c <= U64_SIZE + 7
  {
    FirstCutQuotient(0x2000_0000_0000_0000, t, c);
    FirstCutRatio(U64_SIZE, t, c);
  }

  lemma CutOverflow(n: nat)
    requires U64_SIZE <= n <= U64_SIZE + 7
    ensures Max(LowU64(n), 1) <= 7
  {
  }

  lemma {:induction false} OneSecondRatio(prev: U64, c: nat)
    requires 1 <= c <= 4
    ensures Max(LowU64(Ratio(prev, 1, c)), 1) >= prev / 4
  {
    DivAntitone(prev, c, 4);
    DivAntitone(prev, 1, c);
    CutIff(prev / c);
  }

  lemma OneSecondClamp(actual: U64)
    ensures 1 <= ClampedTimespan(actual, 1) <= 4
  {
  }

  lemma {:induction false} QuarterOfOneSecond(prev: U64, actual: U64, blockTime: U64, window: U64)
    requires TargetTimespan(blockTime, window) == 1
    ensures NextDifficulty(prev, actual, blockTime, window) >= prev / 4
  {
    hide TargetTimespan, ClampedTimespan, LowU64, Ratio, Max;
    OneSecondClamp(actual);
    OneSecondRatio(prev, ClampedTimespan(actual, 1));
  }

  lemma {:induction false} QuarterLost(blockTime: U64, window: U64)
    requires var t := TargetTimespan(blockTime, window); t >= 2 && WrapMul(t, 4) >= t / 4
    ensures !AtLeastQuarter(blockTime, window)
  {
    hide TargetTimespan;
    var t := TargetTimespan(blockTime, window);
    var c: int := ClampedTimespan(0, t);
    assert 0 < c && 2 * c <= t <= 7 * c;
    hide ClampedTimespan, LowU64, Max;
    FirstCut(t, c);
    var prev: U64 := U64_SIZE * c / t + 1;
    CutOverflow(Ratio(prev, t, c));
    assert !(NextDifficulty(prev, 0, blockTime, window) >= prev / 4);
  }

  /** A clamp that wrapped to 4 * w, and a difficulty just below a multiple of 16 * w. */
  lemma {:induction false} WrappedDifficulty(w: nat, j: nat)
    requires 1 <= w && 1 <= j <= 3 && 15 * w < j * 0x4000_0000_0000_0000
    ensures var k := 0x1000_0000_0000_0000 / w;
      var prev := 16 * (k * w) - 1;
      16 <= prev <= U64_MAX && j * 0x4000_0000_0000_0000 <= prev * w
  {
    var k := 0x1000_0000_0000_0000 / w;
    QuotientBounds(0x1000_0000_0000_0000, w);
    assert (k + 1) * w == k * w + w;
    var prev := 16 * (k * w) - 1;
    MulMono(if w >= 4 then 4 else 1, w, prev);
  }

  lemma {:induction false} WrappedProduct(t: nat, w: nat, j: nat, k: nat, prev: nat, e: nat)
    requires t == j * e + w && prev + 1 == 16 * (k * w)
    ensures prev * t == k * j * (4 * e) * (4 * w) + (prev * w - j * e)
  {
    assert prev * t == prev * (j * e) + prev * w;
    assert (prev + 1) * (j * e) == prev * (j * e) + j * e;
    MulReorder(k, w, j, e);
  }

  lemma MulReorder(k: nat, w: nat, j: nat, e: nat)
    ensures 16 * (k * w) * (j * e) == k * j * (4 * e) * (4 * w)
  {
    assert k * j * (4 * e) * (4 * w) == 16 * (k * j * e * w);
    assert k * w * (j * e) == k * j * e * w;
  }

  lemma SumTimes(high: nat, q: nat, d: nat)
    ensures (high + q) * d == high * d + q * d
  {
  }

  lemma LowAdded(high: nat, q: nat)
    requires q <= U64_MAX
    ensures LowU64(high * U64_SIZE + q) == q
  {
  }

  lemma {:induction false} QuotientOfSum(high: nat, d: nat, rest: nat)
    requires d > 0
    ensures (high * d + rest) / d == high + rest / d
  {
    var q := rest / d;
    QuotientBounds(rest, d);
    SumTimes(high, q, d);
    SumTimes(q, 1, d);
    QuotientUnique(high * d + rest, d, high + q, rest - q * d);
  }

  /** Whole multiples of 2^64 in a quotient are cut off. */
  lemma {:induction false} LowOfSum(n: nat, d: nat, high: nat, rest: nat)
    requires d > 0 && n == high * U64_SIZE * d + rest && rest / d <= U64_MAX
    ensures LowU64(n / d) == rest / d
  {
    hide LowU64;
    QuotientOfSum(high * U64_SIZE, d, rest);
    LowAdded(high, rest / d);
  }

  lemma {:induction false} WrappedRatio(t: nat, w: nat, j: nat, k: nat, prev: nat)
    requires 1 <= w && 15 * w < j * 0x4000_0000_0000_0000 <= prev * w && prev <= U64_MAX
    requires t == j * 0x4000_0000_0000_0000 + w && prev + 1 == 16 * (k * w)
    ensures LowU64(prev * t / (4 * w)) <= prev / 4 - 3
  {
    var rest := prev * w - j * 0x4000_0000_0000_0000;
    WrappedProduct(t, w, j, k, prev, 0x4000_0000_0000_0000);
    assert (prev - 15) * w == prev * w - 15 * w;
    QuarterOf(prev, w, rest);
    LowOfSum(prev * t, 4 * w, k * j, rest);
  }

  lemma {:induction false} QuarterOf(prev: nat, w: nat, rest: nat)
    requires w >= 1 && rest <= (prev - 15) * w
    ensures rest / (4 * w) <= prev / 4 - 3
  {
    var q := rest / (4 * w);
    QuotientBounds(rest, 4 * w);
    assert q * (4 * w) == 4 * q * w;
    if 4 * q > prev - 15 {
      MulMono(prev - 14, 4 * q, w);
    }
  }

  lemma WrapParts(t: U64) returns (j: nat, w: nat)
    requires t >= 2 && WrapMul(t, 4) < t / 4
    ensures t == j * 0x4000_0000_0000_0000 + w && WrapMul(t, 4) == 4 * w
    ensures 1 <= j <= 3 && 15 * w < j * 0x4000_0000_0000_0000
  {
    j, w := t / 0x4000_0000_0000_0000, t % 0x4000_0000_0000_0000;
  }

  /** A wrapped upper clamp below the lower one fixes the timespan at W = 4T mod 2^64. */
  lemma {:induction false} QuarterLostWrapped(blockTime: U64, window: U64)
    requires var t := TargetTimespan(blockTime, window); t >= 2 && WrapMul(t, 4) < t / 4
    ensures !AtLeastQuarter(blockTime, window)
  {
    hide TargetTimespan;
    var t := TargetTimespan(blockTime, window);
    var j, w := WrapParts(t);
    hide WrapMul;
    if w == 0 {
      assert ClampedTimespan(0, t) == 1;
      assert !(NextDifficulty(8, 0, blockTime, window) >= 8 / 4);
    } else {
      WrappedDifficulty(w, j);
      var k := 0x1000_0000_0000_0000 / w;
      var prev: U64 := 16 * (k * w) - 1;
      WrappedRatio(t, w, j, k, prev);
      assert ClampedTimespan(0, t) == 4 * w;
      assert !(NextDifficulty(prev, 0, blockTime, window) >= prev / 4);
    }
  }

  /** The documented lower factor, wrap-arounds included: it holds for every
      difficulty and timespan only if the target timespan is a single second. */
  lemma {:induction false} QuarterIff(blockTime: U64, window: U64)
    ensures AtLeastQuarter(blockTime, window) <==> TargetTimespan(blockTime, window) == 1
  {
    hide TargetTimespan, NextDifficulty;
    var t := TargetTimespan(blockTime, window);
    if t == 1 {
      forall prev: U64, actual: U64 ensures NextDifficulty(prev, actual, blockTime, window) >= prev / 4 {
        QuarterOfOneSecond(prev, actual, blockTime, window);
      }
    } else if WrapMul(t, 4) >= t / 4 {
      QuarterLost(blockTime, window);
    } else {
      QuarterLostWrapped(blockTime, window);
    }
  }

  /** The cast turns the order around: of two windows with target timespan 4 the
      fast one asks for four times the difficulty and the code drops it to 1, the
      one on time keeps it. */
  lemma RetargetWrapExample()
    ensures NextDifficulty(0x4000_0000_0000_0000, 0, 4, 1) == 1
    ensures NextDifficulty(0x4000_0000_0000_0000, 4, 4, 1) == 0x4000_0000_0000_0000
    ensures !NeverRises(0x4000_0000_0000_0000, 4, 1)
  {
    assert TargetTimespan(4, 1) == 4;
    assert ClampedTimespan(0, 4) == 1 && ClampedTimespan(4, 4) == 4;
    var fast: U64, slow: U64 := 0, 4;
    assert NextDifficulty(0x4000_0000_0000_0000, slow, 4, 1) > NextDifficulty(0x4000_0000_0000_0000, fast, 4, 1);
  }
}
