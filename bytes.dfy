/** Fixed-width unsigned integers used by the driver, and the big-endian byte
    forms that Rust's `to_be_bytes` / `from_be_bytes` give them on the bus. */
module Bytes {

  type byte = x: int | 0 <= x < 0x100
  type u16 = x: int | 0 <= x < 0x1_0000
  type u32 = x: int | 0 <= x < 0x1_0000_0000

  /** `x.to_be_bytes()` for a u16: most significant byte first. */
  function U16ToBe(x: u16): (b: seq<byte>)
    ensures |b| == 2
  {
    [x / 0x100, x % 0x100]
  }

  /** `u16::from_be_bytes(b)`. */
  function U16FromBe(b: seq<byte>): u16
    requires |b| == 2
  {
    b[0] as int * 0x100 + b[1]
  }

  /** `x.to_be_bytes()` for a u32. */
  function U32ToBe(x: u32): (b: seq<byte>)
    ensures |b| == 4
  {
    [x / 0x100_0000, (x / 0x1_0000) % 0x100, (x / 0x100) % 0x100, x % 0x100]
  }

  /** `u32::from_be_bytes(b)`. */
  function U32FromBe(b: seq<byte>): u32
    requires |b| == 4
  {
    ((b[0] as int * 0x100 + b[1]) * 0x100 + b[2]) * 0x100 + b[3]
  }

  lemma U16RoundTrip(x: u16)
    ensures U16FromBe(U16ToBe(x)) == x
  {
  }

  lemma U16BytesRoundTrip(b: seq<byte>)
    requires |b| == 2
    ensures U16ToBe(U16FromBe(b)) == b
  {
  }

  lemma {:induction false} U32RoundTrip(x: u32)
    ensures U32FromBe(U32ToBe(x)) == x
  {
    var b := U32ToBe(x);
    assert b[0] as int * 0x100 + b[1] == x / 0x1_0000;
    assert (x / 0x1_0000) * 0x100 + b[2] == x / 0x100;
  }

  lemma {:induction false} U32BytesRoundTrip(b: seq<byte>)
    requires |b| == 4
    ensures U32ToBe(U32FromBe(b)) == b
  {
    var x := U32FromBe(b);
    var hi: int := b[0] as int * 0x100 + b[1];
    var mid: int := hi * 0x100 + b[2];
    assert x == mid * 0x100 + b[3];
    assert x / 0x100 == mid && x % 0x100 == b[3];
    assert mid / 0x100 == hi && mid % 0x100 == b[2];
    assert x / 0x1_0000 == hi by {
      assert x == hi * 0x1_0000 + (b[2] as int * 0x100 + b[3]);
    }
    assert x / 0x100_0000 == b[0] by {
      assert x == b[0] as int * 0x100_0000 + (b[1] as int * 0x1_0000 + b[2] as int * 0x100 + b[3]);
    }
  }

  // Bitwise operators on unsigned values, bit by bit from the least
  // significant bit, for the register codes the driver ORs and masks.

  /** `a | b`. */
  function BitOr(a: nat, b: nat): nat
    decreases a + b
  {
    if a == 0 then b
    else if b == 0 then a
    else 2 * BitOr(a / 2, b / 2) + (if a % 2 == 1 || b % 2 == 1 then 1 else 0)
  }

  /** `a & b`. */
  function BitAnd(a: nat, b: nat): nat
    decreases a
  {
    if a == 0 || b == 0 then 0
    else 2 * BitAnd(a / 2, b / 2) + (if a % 2 == 1 && b % 2 == 1 then 1 else 0)
  }

  function Pow2(k: nat): (p: nat)
    ensures p >= 1
  {
    if k == 0 then 1 else 2 * Pow2(k - 1)
  }

  lemma {:induction false} BitOrCommutes(a: nat, b: nat)
    ensures BitOr(a, b) == BitOr(b, a)
    decreases a + b
  {
    if a != 0 && b != 0 {
      BitOrCommutes(a / 2, b / 2);
    }
  }

  /** OR-ing a value below `2^k` with a multiple of `2^k` sets disjoint bits,
      so the OR is the sum and nothing is lost. */
  lemma {:induction false} BitOrDisjoint(lo: nat, hi: nat, k: nat)
    requires lo < Pow2(k)
    ensures BitOr(lo, hi * Pow2(k)) == lo + hi * Pow2(k)
  {
    if k == 0 || lo == 0 || hi == 0 {
    } else {
      var p := Pow2(k - 1);
      assert hi * Pow2(k) == 2 * (hi * p);
      assert (hi * Pow2(k)) / 2 == hi * p && (hi * Pow2(k)) % 2 == 0;
      BitOrDisjoint(lo / 2, hi, k - 1);
    }
  }

  /** Masking with `2^k - 1` keeps a value below `2^k` unchanged. */
  lemma {:induction false} BitAndLowOnes(x: nat, k: nat)
    requires x < Pow2(k)
    ensures BitAnd(x, Pow2(k) - 1) == x
  {
    if x != 0 {
      assert k > 0;
      assert (Pow2(k) - 1) / 2 == Pow2(k - 1) - 1 && (Pow2(k) - 1) % 2 == 1;
      BitAndLowOnes(x / 2, k - 1);
    }
  }

  /** `x & 0xFE` on a byte clears bit 0 and keeps bits 7:1. */
  lemma ClearBit0(x: byte)
    ensures BitAnd(x, 0xFE) == x - x % 2
  {
    if x != 0 {
      assert Pow2(7) == 0x80;
      BitAndLowOnes(x / 2, 7);
    }
  }
}
