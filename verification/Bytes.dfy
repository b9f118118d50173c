/** Bytes, big-endian integers and the exclusive or used by the nonce. */
module Bytes {

  type byte = x: int | 0 <= x < 256

  function Pow256(width: nat): (p: nat)
    ensures p > 0
  {
    if width == 0 then 1 else 256 * Pow256(width - 1)
  }

  /** The low `width` bytes of `value`, most significant byte first. */
  function BigEndian(value: nat, width: nat): (s: seq<byte>)
    ensures |s| == width
  {
    if width == 0 then [] else BigEndian(value / 256, width - 1) + [value % 256]
  }

  /** The number a big-endian byte string denotes. */
  function Value(s: seq<byte>): nat {
    if |s| == 0 then 0 else Value(s[..|s| - 1]) * 256 + s[|s| - 1]
  }

  lemma {:induction false} ValueOfBigEndian(value: nat, width: nat)
    requires value < Pow256(width)
    ensures Value(BigEndian(value, width)) == value
  {
    if width > 0 {
      ValueOfBigEndian(value / 256, width - 1);
      var s := BigEndian(value, width);
      assert s[..|s| - 1] == BigEndian(value / 256, width - 1);
    }
  }

  lemma {:induction false} BigEndianOfValue(s: seq<byte>)
    ensures Value(s) < Pow256(|s|)
    ensures BigEndian(Value(s), |s|) == s
  {
    if |s| > 0 {
      var front := s[..|s| - 1];
      BigEndianOfValue(front);
      assert Value(s) / 256 == Value(front) && Value(s) % 256 == s[|s| - 1];
      assert s == front + [s[|s| - 1]];
    }
  }

  /** The widths that occur on the wire. */
  lemma Widths()
    ensures Pow256(1) == 0x100
    ensures Pow256(2) == 0x1_0000
    ensures Pow256(4) == 0x1_0000_0000
    ensures Pow256(8) == 0x1_0000_0000_0000_0000
  {
    assert Pow256(3) == 0x100_0000;
    assert Pow256(4) == 0x1_0000_0000;
    assert Pow256(5) == 0x100_0000_0000;
    assert Pow256(6) == 0x1_0000_0000_0000;
    assert Pow256(7) == 0x100_0000_0000_0000;
  }

  /** Big-endian encoding at one width is injective on the values that fit. */
  lemma BigEndianInjective(a: nat, b: nat, width: nat)
    requires a < Pow256(width) && b < Pow256(width)
    requires BigEndian(a, width) == BigEndian(b, width)
    ensures a == b
  {
    ValueOfBigEndian(a, width);
    ValueOfBigEndian(b, width);
  }

  /** Short numbers spelled out. */
  lemma OneByte(value: nat)
    requires value < 0x100
    ensures BigEndian(value, 1) == [value]
  {
    assert BigEndian(value / 256, 0) == [];
    assert BigEndian(value, 1) == [value % 256];
  }

  lemma TwoBytes(value: nat)
    requires value < 0x1_0000
    ensures BigEndian(value, 2) == [value / 256, value % 256]
  {
    OneByte(value / 256);
    assert BigEndian(value, 2) == BigEndian(value / 256, 1) + [value % 256];
  }

  /** Equal strings cut at the same place have equal parts. */
  lemma EqualParts<T>(a: seq<T>, x: seq<T>, b: seq<T>, y: seq<T>)
    requires |a| == |b| && a + x == b + y
    ensures a == b && x == y
  {
    assert a == (a + x)[..|a|] && b == (b + y)[..|b|];
    assert x == (a + x)[|a|..] && y == (b + y)[|b|..];
  }

  /** The same for a head part in front of a longer string. */
  lemma EqualHeads<T>(p: seq<T>, a: seq<T>, x: seq<T>, q: seq<T>, b: seq<T>, y: seq<T>)
    requires |p| == |q| && p + a + x == q + b + y
    ensures p == q && a + x == b + y
  {
    assert p + a + x == p + (a + x) && q + b + y == q + (b + y);
    EqualParts(p, a + x, q, b + y);
  }

  function Pow2(bits: nat): (p: nat)
    ensures p > 0
  {
    if bits == 0 then 1 else 2 * Pow2(bits - 1)
  }

  /** Bitwise exclusive or of the low `bits` bits, least significant bit last. */
  function XorBits(a: nat, b: nat, bits: nat): (x: nat)
    ensures x < Pow2(bits)
  {
    if bits == 0 then 0 else 2 * XorBits(a / 2, b / 2, bits - 1) + if a % 2 == b % 2 then 0 else 1
  }

  lemma {:induction false} XorBitsCancels(pad: nat, a: nat, b: nat, bits: nat)
    requires a < Pow2(bits) && b < Pow2(bits)
    requires XorBits(pad, a, bits) == XorBits(pad, b, bits)
    ensures a == b
  {
    if bits > 0 {
      XorBitsCancels(pad / 2, a / 2, b / 2, bits - 1);
    }
  }

  lemma EightBits()
    ensures Pow2(8) == 256
  {
    assert Pow2(4) == 16;
    assert Pow2(6) == 64;
  }

  function Xor(a: byte, b: byte): byte {
    EightBits();
    XorBits(a, b, 8)
  }

  /** Bit `k` of a number, bit 0 being the least significant one. */
  function Bit(n: nat, k: nat): bool {
    if k == 0 then n % 2 == 1 else Bit(n / 2, k - 1)
  }

  /** `x` has a bit set exactly where `a` and `b` differ. */
  ghost predicate IsXor(x: byte, a: byte, b: byte) {
    forall k :: 0 <= k < 8 ==> (Bit(x, k) <==> Bit(a, k) != Bit(b, k))
  }

  lemma {:induction false} XorBitsBit(a: nat, b: nat, bits: nat, k: nat)
    requires k < bits
    ensures Bit(XorBits(a, b, bits), k) <==> Bit(a, k) != Bit(b, k)
  {
    var x, y := XorBits(a, b, bits), XorBits(a / 2, b / 2, bits - 1);
    assert x / 2 == y && (x % 2 == 1 <==> a % 2 != b % 2);
    if k > 0 {
      XorBitsBit(a / 2, b / 2, bits - 1, k - 1);
    }
  }

  lemma {:induction false} BitsDetermine(x: nat, y: nat, bits: nat)
    requires x < Pow2(bits) && y < Pow2(bits)
    requires forall k :: 0 <= k < bits ==> (Bit(x, k) <==> Bit(y, k))
    ensures x == y
  {
    if bits > 0 {
      assert Bit(x, 0) <==> Bit(y, 0);
      forall k | 0 <= k < bits - 1
        ensures Bit(x / 2, k) <==> Bit(y / 2, k)
      {
        assert Bit(x, k + 1) <==> Bit(y, k + 1);
      }
      BitsDetermine(x / 2, y / 2, bits - 1);
    }
  }

  /** `Xor` is the bitwise exclusive or of two bytes, and the only byte that is. */
  lemma XorIsExclusiveOr(x: byte, a: byte, b: byte)
    ensures x == Xor(a, b) <==> IsXor(x, a, b)
  {
    EightBits();
    forall k | 0 <= k < 8
      ensures Bit(Xor(a, b), k) <==> Bit(a, k) != Bit(b, k)
    {
      XorBitsBit(a, b, 8, k);
    }
    if IsXor(x, a, b) {
      BitsDetermine(x, Xor(a, b), 8);
    }
  }

  lemma {:induction false} ZeroHasNoBit(k: nat)
    ensures !Bit(0, k)
  {
    if k > 0 {
      ZeroHasNoBit(k - 1);
    }
  }

  lemma XorZero(a: byte)
    ensures Xor(a, 0) == a
  {
    forall k | 0 <= k < 8
      ensures Bit(a, k) <==> Bit(a, k) != Bit(0, k)
    {
      ZeroHasNoBit(k);
    }
    XorIsExclusiveOr(a, a, 0);
  }

  lemma XorCancels(pad: byte, a: byte, b: byte)
    requires Xor(pad, a) == Xor(pad, b)
    ensures a == b
  {
    EightBits();
    XorBitsCancels(pad, a, b, 8);
  }
}
