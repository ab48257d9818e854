/** Byte strings, fixed-width little-endian integers, two's complement and exclusive or. */
module ByteStrings {
  type byte = x: int | 0 <= x < 256

  type Bytes = seq<byte>

  const TWO_TO_16: int := 0x1_0000
  const TWO_TO_24: int := 0x100_0000
  const TWO_TO_31: int := 0x8000_0000
  const TWO_TO_32: int := 0x1_0000_0000

  function Pow256(len: nat): nat {
    if len == 0 then 1 else 256 * Pow256(len - 1)
  }

  /** The low `len` bytes of `n`, least significant first. */
  function LittleEndian(n: nat, len: nat): (b: Bytes)
    ensures |b| == len
  {
    if len == 0 then [] else [n % 256] + LittleEndian(n / 256, len - 1)
  }

  function FromLittleEndian(b: Bytes): nat {
    if b == [] then 0 else b[0] + 256 * FromLittleEndian(b[1..])
  }

  lemma {:induction false} FromLittleEndianBound(b: Bytes)
    ensures FromLittleEndian(b) < Pow256(|b|)
  {
    if b != [] {
      FromLittleEndianBound(b[1..]);
    }
  }

  /** Decoding undoes encoding for every number the width can hold. */
  lemma {:induction false} LittleEndianRoundTrip(n: nat, len: nat)
    requires n < Pow256(len)
    ensures FromLittleEndian(LittleEndian(n, len)) == n
  {
    if len > 0 {
      LittleEndianRoundTrip(n / 256, len - 1);
      assert LittleEndian(n, len)[1..] == LittleEndian(n / 256, len - 1);
    }
  }

  /** Every byte string is the encoding of the number it decodes to. */
  lemma {:induction false} FromLittleEndianRoundTrip(b: Bytes)
    ensures LittleEndian(FromLittleEndian(b), |b|) == b
  {
    if b != [] {
      FromLittleEndianRoundTrip(b[1..]);
      assert (b[0] + 256 * FromLittleEndian(b[1..])) % 256 == b[0];
      assert (b[0] + 256 * FromLittleEndian(b[1..])) / 256 == FromLittleEndian(b[1..]);
      assert b == [b[0]] + b[1..];
    }
  }

  lemma Widths()
    ensures Pow256(2) == TWO_TO_16
    ensures Pow256(3) == TWO_TO_24
    ensures Pow256(4) == TWO_TO_32
  {
    assert Pow256(1) == 256;
    assert Pow256(2) == 256 * Pow256(1);
    assert Pow256(3) == 256 * Pow256(2);
  }

  lemma TwoBytes(n: nat)
    ensures LittleEndian(n, 2) == [n % 256, n / 256 % 256]
    ensures FromLittleEndian(LittleEndian(n, 2)) == n % 256 + 256 * (n / 256 % 256)
  {
    assert LittleEndian(n / 256, 1) == [n / 256 % 256];
    var b := LittleEndian(n, 2);
    assert b[1..] == [n / 256 % 256];
    assert FromLittleEndian(b[1..]) == n / 256 % 256 + 256 * FromLittleEndian([]) by {
      assert b[1..][1..] == [];
    }
  }

  lemma SplitAtSixteen(n: nat)
    ensures n % 256 + 256 * (n / 256 % 256) == n % TWO_TO_16
    ensures n % TWO_TO_16 % 256 == n % 256 && n % TWO_TO_16 / 256 == n / 256 % 256
  {
    var low, mid, high := n % 256, n / 256 % 256, n / 256 / 256;
    assert n / 256 == 256 * high + mid;
    assert n == 65536 * high + (256 * mid + low);
  }

  /** Two bytes carry exactly the low 16 bits of a counter. */
  lemma LowSixteenBits(n: nat)
    ensures FromLittleEndian(LittleEndian(n, 2)) == n % TWO_TO_16
    ensures LittleEndian(n, 2) == LittleEndian(n % TWO_TO_16, 2)
  {
    TwoBytes(n);
    TwoBytes(n % TWO_TO_16);
    SplitAtSixteen(n);
  }

  function Reverse(b: Bytes): (r: Bytes)
    ensures |r| == |b|
    ensures forall i :: 0 <= i < |b| ==> r[i] == b[|b| - 1 - i]
  {
    seq(|b|, i requires 0 <= i < |b| => b[|b| - 1 - i])
  }

  lemma ReverseTwice(b: Bytes)
    ensures Reverse(Reverse(b)) == b
  {
  }

  /** Go's conversion of a uint32 to an int32. */
  function ToInt32(n: nat): (r: int)
    requires n < TWO_TO_32
    ensures -TWO_TO_31 <= r < TWO_TO_31
  {
    if n < TWO_TO_31 then n else n - TWO_TO_32
  }

  /** Go's conversion of an int32 to a uint32. */
  function FromInt32(r: int): (n: nat)
    requires -TWO_TO_31 <= r < TWO_TO_31
    ensures n < TWO_TO_32
    ensures ToInt32(n) == r
  {
    if r < 0 then r + TWO_TO_32 else r
  }

  function Pow2(n: nat): nat {
    if n == 0 then 1 else 2 * Pow2(n - 1)
  }

  /** Exclusive or of the low `n` bits. */
  function XorBits(a: nat, b: nat, n: nat): (r: nat)
    ensures r < Pow2(n)
  {
    if n == 0 then 0
    else (if a % 2 == b % 2 then 0 else 1) + 2 * XorBits(a / 2, b / 2, n - 1)
  }

  lemma {:induction false} XorBitsTwice(a: nat, b: nat, n: nat)
    requires a < Pow2(n)
    ensures XorBits(XorBits(a, b, n), b, n) == a
  {
    if n > 0 {
      XorBitsTwice(a / 2, b / 2, n - 1);
      var bit, rest := if a % 2 == b % 2 then 0 else 1, XorBits(a / 2, b / 2, n - 1);
      var r := XorBits(a, b, n);
      assert r == bit + 2 * rest && r % 2 == bit && r / 2 == rest;
    }
  }

  lemma EightBits()
    ensures Pow2(8) == 256
  {
    assert Pow2(4) == 16;
    assert Pow2(6) == 64;
  }

  function Xor(a: byte, b: byte): byte {
    EightBits();
    XorBits(a, b, 8)
  }

  lemma XorTwice(a: byte, b: byte)
    ensures Xor(Xor(a, b), b) == a
  {
    EightBits();
    XorBitsTwice(a, b, 8);
  }
}
