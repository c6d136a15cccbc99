/**
 * Little-endian decoding of the integer and floating-point kinds that the
 * SPE header and pixel payload use: u8, u16, u32 unsigned, i16, i32 in
 * two's complement, and IEEE 754 binary64 doubles (read as exact reals).
 */
module Bytes {
  import opened Wrappers

  type Byte = b: int | 0 <= b < 256

  function Pow256(n: nat): (p: nat)
    ensures p >= 1
  {
    if n == 0 then 1 else 256 * Pow256(n - 1)
  }

  /** Unsigned little-endian value: the first byte is the least significant. */
  function LeUnsigned(b: seq<Byte>): (v: nat)
    ensures v < Pow256(|b|)
  {
    if b == [] then 0 else b[0] + 256 * LeUnsigned(b[1..])
  }

  /** The n-byte little-endian representation of v. */
  function LeEncode(v: nat, n: nat): (b: seq<Byte>)
    requires v < Pow256(n)
    ensures |b| == n
  {
    if n == 0 then [] else [v % 256] + LeEncode(v / 256, n - 1)
  }

  lemma {:induction false} LeDecodeEncode(v: nat, n: nat)
    requires v < Pow256(n)
    ensures LeUnsigned(LeEncode(v, n)) == v
  {
    if n > 0 {
      LeDecodeEncode(v / 256, n - 1);
      assert LeEncode(v, n)[1..] == LeEncode(v / 256, n - 1);
    }
  }

  lemma {:induction false} LeEncodeDecode(b: seq<Byte>)
    ensures LeEncode(LeUnsigned(b), |b|) == b
  {
    if b != [] {
      var v := LeUnsigned(b);
      assert v % 256 == b[0] && v / 256 == LeUnsigned(b[1..]);
      LeEncodeDecode(b[1..]);
    }
  }

  /** Half the range of an n-byte integer: the bound of the signed kinds. */
  function Half(n: nat): (h: int)
    requires n >= 1
    ensures h > 0 && 2 * h == Pow256(n)
  {
    128 * Pow256(n - 1)
  }

  /** Reads an n-byte pattern u as a two's complement number. */
  function TwosComplement(u: nat, n: nat): (v: int)
    requires n >= 1 && u < Pow256(n)
    ensures -Half(n) <= v < Half(n)
    ensures v >= 0 <==> u < Half(n)
    ensures v < 0 ==> v + Pow256(n) == u
  {
    if u < Half(n) then u else u - Pow256(n)
  }

  /** Signed little-endian value (i16 for two bytes, i32 for four). */
  function LeSigned(b: seq<Byte>): (v: int)
    requires |b| >= 1
    ensures -Half(|b|) <= v < Half(|b|)
  {
    TwosComplement(LeUnsigned(b), |b|)
  }

  /** The n-byte two's complement representation of v. */
  function SignedEncode(v: int, n: nat): (b: seq<Byte>)
    requires n >= 1 && -Half(n) <= v < Half(n)
    ensures |b| == n
  {
    LeEncode(if v < 0 then v + Pow256(n) else v, n)
  }

  lemma SignedDecodeEncode(v: int, n: nat)
    requires n >= 1 && -Half(n) <= v < Half(n)
    ensures LeSigned(SignedEncode(v, n)) == v
  {
    LeDecodeEncode(if v < 0 then v + Pow256(n) else v, n);
  }

  lemma SignedEncodeDecode(b: seq<Byte>)
    requires |b| >= 1
    ensures SignedEncode(LeSigned(b), |b|) == b
  {
    LeEncodeDecode(b);
  }

  /** 2 to the power n, as a real. */
  function Pow2Nat(n: nat): (p: real)
    ensures p >= 1.0
  {
    if n == 0 then 1.0 else 2.0 * Pow2Nat(n - 1)
  }

  /** 2 to the power e, for negative e too. */
  function Pow2(e: int): (p: real)
    ensures p > 0.0
  {
    if e >= 0 then Pow2Nat(e) else 1.0 / Pow2Nat(-e)
  }

  /** The sign bit of a little-endian binary64 pattern: bit 7 of the last byte. */
  function SignOf(b: seq<Byte>): bool
    requires |b| == 8
  {
    b[7] >= 128
  }

  /** The biased exponent field: bits 52..62. */
  function ExponentOf(b: seq<Byte>): (e: nat)
    requires |b| == 8
    ensures e < 2048
  {
    var hi: int, mid: int := b[7], b[6];
    (hi % 128) * 16 + mid / 16
  }

  /** The 52-bit fraction field: bits 0..51. */
  function FractionOf(b: seq<Byte>): (f: nat)
    requires |b| == 8
    ensures f < FractionUnit
  {
    var mid: int := b[6];
    assert Pow256(6) == 0x1_0000_0000_0000;
    LeUnsigned(b[..6]) + (mid % 16) * 0x1_0000_0000_0000
  }

  const FractionUnit: nat := 0x10_0000_0000_0000   // 2^52

  /**
   * The value of an IEEE 754 binary64 number stored little-endian in eight
   * bytes, as an exact real; None for the infinities and NaNs (exponent
   * field all ones). Subnormals (exponent field zero) have no implicit bit.
   */
  function DoubleValue(b: seq<Byte>): (r: Option<real>)
    requires |b| == 8
    ensures r.None? <==> ExponentOf(b) == 2047
    ensures r.Some? && SignOf(b) ==> r.value <= 0.0
    ensures r.Some? && !SignOf(b) ==> r.value >= 0.0
  {
    var m := Magnitude(ExponentOf(b), FractionOf(b));
    if ExponentOf(b) == 2047 then None
    else if SignOf(b) then Some(-m)
    else Some(m)
  }

  /** |value| of a finite binary64 number with exponent field e and fraction field f. */
  function Magnitude(e: nat, f: nat): (m: real)
    ensures m >= 0.0
  {
    var significand := if e == 0 then f else FractionUnit + f;
    var scale := if e == 0 then Pow2(-1074) else Pow2(e - 1075);
    NonNegProduct(significand as real, scale);
    (significand as real) * scale
  }

  lemma NonNegProduct(x: real, y: real)
    requires x >= 0.0 && y >= 0.0
    ensures x * y >= 0.0
  {
  }

  /** Powers of two add exponents: 2^m * 2^n = 2^(m + n). */
  lemma {:induction false} Pow2NatAdd(m: nat, n: nat)
    ensures Pow2Nat(m) * Pow2Nat(n) == Pow2Nat(m + n)
    decreases n
  {
    if n > 0 {
      Pow2NatAdd(m, n - 1);
      DoubleBoth(Pow2Nat(m), Pow2Nat(n - 1), Pow2Nat(n), Pow2Nat(m + n - 1), Pow2Nat(m + n));
    }
  }

  /** If a * p == q, then a * (2p) == 2q. */
  lemma DoubleBoth(a: real, p: real, p2: real, q: real, q2: real)
    requires a * p == q && p2 == 2.0 * p && q2 == 2.0 * q
    ensures a * p2 == q2
  {
  }

  /** Setting the sign bit (bit 7 of the last byte) negates a finite value. */
  lemma SignBitNegates(b: seq<Byte>)
    requires |b| == 8 && b[7] < 128
    requires DoubleValue(b).Some?
    ensures DoubleValue(b[7 := b[7] + 128]) == Some(-DoubleValue(b).value)
  {
    var c := b[7 := b[7] + 128];
    SignBitFields(b, c);
  }

  /** Flipping bit 7 of the last byte leaves the exponent and fraction fields alone. */
  lemma SignBitFields(b: seq<Byte>, c: seq<Byte>)
    requires |b| == 8 && b[7] < 128 && c == b[7 := b[7] + 128]
    ensures ExponentOf(c) == ExponentOf(b) && FractionOf(c) == FractionOf(b)
    ensures SignOf(c) && !SignOf(b)
  {
    assert b[..6] == c[..6];
  }

  /** The all-zero pattern is +0.0. */
  lemma ZeroIsZero()
    ensures DoubleValue([0, 0, 0, 0, 0, 0, 0, 0]) == Some(0.0)
  {
    var b: seq<Byte> := [0, 0, 0, 0, 0, 0, 0, 0];
    LeZero(b[..6]);
  }

  lemma {:induction false} LeZero(b: seq<Byte>)
    requires forall i :: 0 <= i < |b| ==> b[i] == 0
    ensures LeUnsigned(b) == 0
  {
    if b != [] {
      LeZero(b[1..]);
    }
  }

  /** 0x3FF0000000000000 is 1.0. */
  lemma OneIsOne()
    ensures DoubleValue([0, 0, 0, 0, 0, 0, 0xF0, 0x3F]) == Some(1.0)
  {
    OneFields();
    Pow2FractionUnit();
    assert Magnitude(1023, 0) == (FractionUnit as real) * (1.0 / Pow2Nat(52));
  }

  lemma OneFields()
    ensures ExponentOf([0, 0, 0, 0, 0, 0, 0xF0, 0x3F]) == 1023
    ensures FractionOf([0, 0, 0, 0, 0, 0, 0xF0, 0x3F]) == 0
    ensures !SignOf([0, 0, 0, 0, 0, 0, 0xF0, 0x3F])
  {
    var b: seq<Byte> := [0, 0, 0, 0, 0, 0, 0xF0, 0x3F];
    LeZero(b[..6]);
  }

  lemma Pow2FractionUnit()
    ensures Pow2Nat(52) == FractionUnit as real
  {
    assert Pow2Nat(4) == 16.0;
    Pow2NatAdd(4, 4);
    assert Pow2Nat(8) == 256.0;
    Pow2NatAdd(8, 8);
    assert Pow2Nat(16) == 65536.0;
    Pow2NatAdd(16, 16);
    assert Pow2Nat(32) == 4294967296.0;
    Pow2NatAdd(32, 16);
    assert Pow2Nat(48) == 281474976710656.0;
    Pow2NatAdd(48, 4);
  }
}
