/** Base values shared by every other module: machine integers with their
    overflow behaviour spelled out, 256-bit hashes, and results. */
module Primitives {
  const U64_MAX: int := 0xFFFF_FFFF_FFFF_FFFF
  const U64_SIZE: int := 0x1_0000_0000_0000_0000

  type Byte = x: int | 0 <= x < 256
  type U32 = x: int | 0 <= x < 0x1_0000_0000
  type U64 = x: int | 0 <= x <= 0xFFFF_FFFF_FFFF_FFFF

  type Bytes32 = s: seq<Byte> | |s| == 32 witness Repeat(0, 32)

  function Repeat(b: Byte, n: nat): (s: seq<Byte>)
    ensures |s| == n
  {
    if n == 0 then [] else Repeat(b, n - 1) + [b]
  }

  datatype Hash256 = Hash256(bytes: Bytes32)
  datatype Address = Address(bytes: seq<Byte>)
  datatype PublicKey = PublicKey(bytes: seq<Byte>)

  const ZERO_HASH := Hash256(Repeat(0, 32))

  datatype Option<+T> = None | Some(value: T)
  datatype Result<+T, +E> = Ok(value: T) | Err(error: E)

  function Max(a: int, b: int): int { if a < b then b else a }
  function Min(a: int, b: int): int { if a < b then a else b }

  /** Overflow wraps, as in a release build. */
  function WrapAdd(a: U64, b: U64): U64 { (a + b) % U64_SIZE }
  function WrapMul(a: U64, b: U64): U64 { (a * b) % U64_SIZE }

  function SaturatingAdd(a: U64, b: U64): U64 { if a + b > U64_MAX then U64_MAX else a + b }
  function SaturatingSub(a: U64, b: U64): U64 { if a < b then 0 else a - b }
  function SaturatingMul(a: U64, b: U64): U64 { if a * b > U64_MAX then U64_MAX else a * b }

  /** n >> k */
  function ShiftRight(n: U64, k: nat): U64 {
    if k == 0 then n else ShiftRight(n, k - 1) / 2
  }

  function Pow2(n: nat): (r: nat)
    ensures r >= 1
  {
    if n == 0 then 1 else 2 * Pow2(n - 1)
  }

  function Reverse<T>(s: seq<T>): (r: seq<T>)
    ensures |r| == |s|
  {
    if s == [] then [] else Reverse(s[1..]) + [s[0]]
  }

  lemma {:induction false} ReverseSnoc<T>(s: seq<T>, x: T)
    ensures Reverse(s + [x]) == [x] + Reverse(s)
  {
    if s == [] {
      assert [x][1..] == [];
      assert s + [x] == [x];
    } else {
      ReverseSnoc(s[1..], x);
      assert (s + [x])[1..] == s[1..] + [x];
    }
  }

  lemma {:induction false} ReverseAt<T>(s: seq<T>, i: nat)
    requires i < |s|
    ensures Reverse(s)[i] == s[|s| - 1 - i]
  {
    if i < |s| - 1 {
      ReverseAt(s[1..], i);
    }
  }

  lemma {:induction false} ReverseTwice<T>(s: seq<T>)
    ensures Reverse(Reverse(s)) == s
  {
    if s != [] {
      ReverseSnoc(Reverse(s[1..]), s[0]);
      ReverseTwice(s[1..]);
    }
  }
}
