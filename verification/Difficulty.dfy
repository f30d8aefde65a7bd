/** Difficulty, the 256-bit target it stands for, and the retarget rule. */
module Difficulty {
  import opened Primitives
  import opened Arithmetic

  const MAX_TARGET: Bytes32 := Repeat(255, 32)

  // ----- big-endian numbers -----

  function BeValue(s: seq<Byte>): nat {
    if s == [] then 0 else BeValue(s[..|s| - 1]) * 256 + s[|s| - 1]
  }

  function Pow256(n: nat): (r: nat)
    ensures r >= 1
  {
    if n == 0 then 1 else 256 * Pow256(n - 1)
  }

  function BeBytes(n: nat, v: nat): (s: seq<Byte>)
    ensures |s| == n
  {
    if n == 0 then [] else BeBytes(n - 1, v / 256) + [v % 256]
  }

  lemma {:induction false} BeValueBound(s: seq<Byte>)
    ensures BeValue(s) < Pow256(|s|)
  {
    if s != [] {
      BeValueBound(s[..|s| - 1]);
    }
  }

  lemma {:induction false} BeRoundTrip(n: nat, v: nat)
    requires v < Pow256(n)
    ensures BeValue(BeBytes(n, v)) == v
  {
    if n > 0 {
      BeRoundTrip(n - 1, v / 256);
      assert BeBytes(n, v)[..n - 1] == BeBytes(n - 1, v / 256);
    }
  }

  lemma {:induction false} BeBytesOfValue(s: seq<Byte>)
    ensures BeBytes(|s|, BeValue(s)) == s
  {
    if s != [] {
      BeBytesOfValue(s[..|s| - 1]);
      assert s == s[..|s| - 1] + [s[|s| - 1]];
    }
  }

  lemma MaxTargetValue()
    ensures BeValue(MAX_TARGET) == Pow256(32) - 1
  {
    AllOnes(32);
  }

  lemma {:induction false} AllOnes(n: nat)
    ensures BeValue(Repeat(255, n)) == Pow256(n) - 1
  {
    if n > 0 {
      AllOnes(n - 1);
      assert Repeat(255, n)[..n - 1] == Repeat(255, n - 1);
    }
  }

  // ----- long division -----

  /** The cast of a wide integer to a byte keeps the low eight bits. */
  function LowByte(x: nat): Byte { x % 256 }

  ghost predicate QuotientRemainder(n: nat, d: nat, q: nat, r: nat) {
    n == q * d + r && r < d
  }

  /** Schoolbook division, most significant byte first. Each quotient digit is
      cut to a byte in the code; DivisionStep shows that nothing is cut. */
  method DivideBeByU64(num: Bytes32, divisor: U64) returns (result: Bytes32)
    requires divisor > 0
    ensures BeValue(result) == BeValue(num) / divisor
  {
    hide QuotientRemainder, BeValue, Pow256, LowByte;
    var remainder: nat := 0;
    var digits := new Byte[32](_ => 0);
    DivisionStart(num, digits[..], divisor);
    for i := 0 to 32
      invariant QuotientRemainder(BeValue(num[..i]), divisor, BeValue(digits[..i]), remainder)
    {
      ghost var before := digits[..i];
      var cur := remainder * 256 + num[i];
      DivisionDigit(cur, divisor);
      DivisionStep(num[..i], divisor, before, remainder, num[i], cur / divisor, cur % divisor);
      digits[i] := LowByte(cur / divisor);
      remainder := cur % divisor;
      assert num[..i + 1] == num[..i] + [num[i]];
      assert digits[..i + 1] == before + [digits[i]];
    }
    assert num[..32] == num && digits[..32] == digits[..];
    result := digits[..];
    QuotientRemainderUnique(BeValue(num), divisor, BeValue(result), remainder);
  }

  lemma DivisionStart(s: seq<Byte>, t: seq<Byte>, d: nat)
    requires d > 0
    ensures QuotientRemainder(BeValue(s[..0]), d, BeValue(t[..0]), 0)
  {
  }

  lemma DivisionDigit(cur: nat, d: nat)
    requires d > 0
    ensures QuotientRemainder(cur, d, cur / d, cur % d)
  {
  }

  lemma {:induction false} DivisionStep(n: seq<Byte>, d: nat, q: seq<Byte>, r: nat, digit: Byte, e: nat, f: nat)
    requires QuotientRemainder(BeValue(n), d, BeValue(q), r)
    requires QuotientRemainder(r * 256 + digit, d, e, f)
    ensures QuotientRemainder(BeValue(n + [digit]), d, BeValue(q + [LowByte(e)]), f)
  {
    hide *;
    DivisionRow(BeValue(n), d, BeValue(q), r, digit, e, f);
    BeValueSnoc(n, digit);
    BeValueSnoc(q, LowByte(e));
  }

  lemma {:induction false} DivisionRow(n: nat, d: nat, q: nat, r: nat, digit: Byte, e: nat, f: nat)
    requires QuotientRemainder(n, d, q, r)
    requires QuotientRemainder(r * 256 + digit, d, e, f)
    ensures e < 256 && QuotientRemainder(n * 256 + digit, d, q * 256 + LowByte(e), f)
  {
    if e >= 256 {
      MulMono(256, e, d);
    }
    assert (q * 256 + e) * d == q * d * 256 + e * d;
  }

  lemma BeValueSnoc(s: seq<Byte>, digit: Byte)
    ensures BeValue(s + [digit]) == BeValue(s) * 256 + digit
  {
    assert (s + [digit])[..|s|] == s;
  }

  lemma {:induction false} QuotientRemainderUnique(n: nat, d: nat, q: nat, r: nat)
    requires d > 0 && QuotientRemainder(n, d, q, r)
    ensures q == n / d
  {
    QuotientUnique(n, d, q, r);
  }

  /** The target of a difficulty, as a value: floor((2^256 - 1) / max(1, difficulty)). */
  function TargetForDifficulty(difficulty: U64): Bytes32 {
    BeBytes(32, (Pow256(32) - 1) / Max(difficulty, 1))
  }

  method ComputeTarget(difficulty: U64) returns (target: Bytes32)
    ensures target == TargetForDifficulty(difficulty)
  {
    hide Pow256, Repeat, BeBytes, BeValue;
    target := DivideBeByU64(MAX_TARGET, Max(difficulty, 1));
    MaxTargetValue();
    BeBytesOfValue(target);
  }

  lemma {:induction false} TargetValue(difficulty: U64)
    ensures BeValue(TargetForDifficulty(difficulty)) == (Pow256(32) - 1) / Max(difficulty, 1)
  {
    hide Pow256;
    BeQuotientRoundTrip(32, Max(difficulty, 1));
  }

  lemma BeQuotientRoundTrip(n: nat, d: nat)
    requires d > 0
    ensures BeValue(BeBytes(n, (Pow256(n) - 1) / d)) == (Pow256(n) - 1) / d
  {
    DivAntitone(Pow256(n) - 1, 1, d);
    BeRoundTrip(n, (Pow256(n) - 1) / d);
  }

  lemma {:induction false} TargetAntitone(d: U64, e: U64)
    requires d <= e
    ensures BeValue(TargetForDifficulty(e)) <= BeValue(TargetForDifficulty(d))
  {
    hide Pow256, TargetForDifficulty;
    TargetValue(d);
    TargetValue(e);
    DivAntitone(Pow256(32) - 1, Max(d, 1), Max(e, 1));
  }

  // ----- proof-of-work check -----

  /** Byte arrays are compared lexicographically, as array comparison does. */
  predicate LexLessOrEqual(a: seq<Byte>, b: seq<Byte>) {
    if a == [] then true
    else if b == [] then false
    else a[0] < b[0] || (a[0] == b[0] && LexLessOrEqual(a[1..], b[1..]))
  }

  predicate MeetsTarget(hash: Hash256, target: Bytes32) {
    LexLessOrEqual(hash.bytes, target)
  }

  lemma {:induction false} BeValueHead(s: seq<Byte>)
    requires s != []
    ensures BeValue(s) == s[0] * Pow256(|s| - 1) + BeValue(s[1..])
  {
    if |s| > 1 {
      var init := s[..|s| - 1];
      BeValueHead(init);
      assert init[1..] == s[1..][..|s| - 2];
      assert s[1..][|s| - 2] == s[|s| - 1];
      var k := Pow256(|s| - 2);
      assert Pow256(|s| - 1) == 256 * k;
      assert s[0] * (256 * k) == s[0] * k * 256;
    } else {
      assert s[..0] == [] && s[1..] == [];
    }
  }

  /** The leading digit decides, the rest breaks ties. */
  lemma {:induction false} DigitOrder(x: nat, y: nat, k: nat, u: nat, v: nat)
    requires u < k && v < k
    ensures x * k + u <= y * k + v <==> x < y || (x == y && u <= v)
  {
    if x < y {
      MulMono(x + 1, y, k);
    } else if y < x {
      MulMono(y + 1, x, k);
    }
  }

  lemma {:induction false} LexIsNumeric(a: seq<Byte>, b: seq<Byte>)
    requires |a| == |b|
    ensures LexLessOrEqual(a, b) <==> BeValue(a) <= BeValue(b)
  {
    if a != [] {
      LexIsNumeric(a[1..], b[1..]);
      BeValueHead(a);
      BeValueHead(b);
      BeValueBound(a[1..]);
      BeValueBound(b[1..]);
      DigitOrder(a[0], b[0], Pow256(|a| - 1), BeValue(a[1..]), BeValue(b[1..]));
    }
  }

  /** What a miner has to find: the hash, read as a number, times the
      difficulty stays below 2^256. */
  lemma {:induction false} PowCheckMeaning(hash: Hash256, difficulty: U64)
    ensures MeetsTarget(hash, TargetForDifficulty(difficulty))
       <==> BeValue(hash.bytes) * Max(difficulty, 1) < Pow256(32)
  {
    hide Pow256, TargetForDifficulty;
    LexIsNumeric(hash.bytes, TargetForDifficulty(difficulty));
    TargetValue(difficulty);
    QuotientAtLeast(Pow256(32) - 1, Max(difficulty, 1), BeValue(hash.bytes));
  }

  // ----- retargeting -----

  function TargetTimespan(blockTime: U64, window: U64): (t: U64)
    ensures t >= 1
  {
    Max(SaturatingMul(blockTime, window), 1)
  }

  /** The timespan after clamping. The upper clamp 4 * T wraps in the code. */
  function ClampedTimespan(actual: U64, t: U64): (r: U64)
    ensures r >= 1
  {
    Max(Min(Max(actual, t / 4), WrapMul(t, 4)), 1)
  }

  /** floor(prev * t / c), in 128-bit arithmetic. */
  function Ratio(prev: U64, t: U64, c: nat): nat
    requires c > 0
  {
    assert prev * t >= 0;
    prev * t / c
  }

  /** The cast of a wide integer to 64 bits. */
  function LowU64(x: nat): U64 { x % U64_SIZE }

  function NextDifficulty(prev: U64, actual: U64, blockTime: U64, window: U64): (d: U64)
    ensures d >= 1
  {
    var t := TargetTimespan(blockTime, window);
    Max(LowU64(Ratio(prev, t, ClampedTimespan(actual, t))), 1)
  }
}
