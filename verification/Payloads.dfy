/** internal/tag/payload.go: the counter and ramp payload generators, in uint32 and byte arithmetic. Sizes are
    positive, since the constructor turns any other into four. */
module Payloads {
  import opened Arithmetic
  import opened ByteStrings

  /** The `len` low bytes of `n`, most significant first. */
  function BigEndian(n: nat, len: nat): (b: Bytes)
    ensures |b| == len
  {
    if len == 0 then [] else BigEndian(n / 256, len - 1) + [n % 256]
  }

  function FromBigEndian(b: Bytes): nat {
    if b == [] then 0 else 256 * FromBigEndian(b[..|b| - 1]) + b[|b| - 1]
  }

  /** 256 to the power of the size, but at most of four. */
  function Modulus(size: nat): (m: nat)
    ensures m > 0
  {
    if size == 0 then 1 else if size == 1 then 0x100 else if size == 2 then 0x1_0000 else if size == 3 then 0x100_0000
    else 0x1_0000_0000
  }

  lemma FourBytes(n: nat)
    requires n < TWO_TO_32
    ensures BigEndian(n, 4) == [n / 0x100_0000, n / 0x1_0000 % 256, n / 256 % 256, n % 256]
  {
    assert n / 256 / 256 == n / 0x1_0000 && n / 256 / 256 / 256 == n / 0x100_0000;
    assert BigEndian(n / 256 / 256 / 256, 1) == [n / 0x100_0000 % 256];
    assert BigEndian(n / 256 / 256, 2) == [n / 0x100_0000, n / 0x1_0000 % 256];
    assert BigEndian(n / 256, 3) == [n / 0x100_0000, n / 0x1_0000 % 256, n / 256 % 256];
  }

  lemma {:induction false} LastBytes(n: nat, len: nat, k: nat)
    requires k <= len
    ensures BigEndian(n, len)[len - k..] == BigEndian(n, k)
  {
    if k > 0 {
      LastBytes(n / 256, len - 1, k - 1);
    }
  }

  lemma {:induction false} LeadingZeros(n: nat, len: nat)
    requires len >= 4 && n < TWO_TO_32
    ensures BigEndian(n, len) == seq(len - 4, i => 0) + BigEndian(n, 4)
  {
    if len > 4 {
      AllZero(len - 4);
      HighBytes(n, 4, len - 4);
      assert n / 0x1_0000_0000 == 0;
    }
  }

  /** The bytes above the low four of `n` are those of `n` divided by 256 to the fourth. */
  lemma {:induction false} HighBytes(n: nat, k: nat, m: nat)
    requires k <= 4
    ensures var d := if k == 0 then n else if k == 1 then n / 256 else if k == 2 then n / 0x1_0000
                     else if k == 3 then n / 0x100_0000
                     else n / 0x1_0000_0000;
      BigEndian(n, m + k) == BigEndian(d, m) + BigEndian(n, k)
  {
    if k > 0 {
      HighBytes(n / 256, k - 1, m);
      assert n / 256 / 256 == n / 0x1_0000 && n / 256 / 0x1_0000 == n / 0x100_0000;
      assert n / 256 / 0x100_0000 == n / 0x1_0000_0000;
    }
  }

  lemma {:induction false} AllZero(len: nat)
    ensures BigEndian(0, len) == seq(len, i => 0)
  {
    if len > 0 {
      AllZero(len - 1);
    }
  }

  /** Copies the four bytes to the end of a buffer of zeros. */
  method Pad(size: nat, four: Bytes) returns (out: Bytes)
    requires size >= 4 && |four| == 4
    ensures out == seq(size - 4, i => 0) + four
  {
    var padded := new byte[size](i => 0);
    for i := 0 to 4
      invariant padded[..size - 4 + i] == seq(size - 4, i => 0) + four[..i]
    {
      padded[size - 4 + i] := four[i];
    }
    assert four[..4] == four;
    out := padded[..];
  }

  /** Four bytes are written to a buffer; a longer payload is padded in front, a shorter one keeps the low bytes. */
  method CounterNext(size: nat, fcnt: nat) returns (out: Bytes)
    requires size > 0 && fcnt < TWO_TO_32
    ensures out == BigEndian(fcnt, size)
  {
    var buf := new byte[4];
    buf[0], buf[1], buf[2], buf[3] := fcnt / 0x100_0000, fcnt / 0x1_0000 % 256, fcnt / 256 % 256, fcnt % 256;
    FourBytes(fcnt);
    assert buf[..] == BigEndian(fcnt, 4);
    if size >= 4 {
      out := Pad(size, buf[..]);
      LeadingZeros(fcnt, size);
    } else {
      out := buf[4 - size..];
      LastBytes(fcnt, 4, size);
      assert out == BigEndian(fcnt, 4)[4 - size..];
    }
  }

  lemma {:induction false} ZerosInFront(len: nat, b: Bytes)
    ensures FromBigEndian(seq(len, i => 0) + b) == FromBigEndian(b)
  {
    var zeros: Bytes := seq(len, i => 0);
    if b != [] {
      assert (zeros + b)[..|zeros + b| - 1] == zeros + b[..|b| - 1];
      ZerosInFront(len, b[..|b| - 1]);
    } else if len > 0 {
      assert (zeros + b)[..|zeros + b| - 1] == seq(len - 1, i => 0) + b;
      ZerosInFront(len - 1, b);
    }
  }

  /** The counter payload reads back as the frame counter modulo what its size, or four bytes, can hold. */
  lemma CounterValue(size: nat, fcnt: nat)
    requires fcnt < TWO_TO_32
    ensures FromBigEndian(BigEndian(fcnt, size)) == fcnt % Modulus(size)
  {
    if size <= 4 {
      LowBytes(fcnt, size);
    } else {
      LeadingZeros(fcnt, size);
      ZerosInFront(size - 4, BigEndian(fcnt, 4));
      LowBytes(fcnt, 4);
    }
  }

  lemma {:induction false} LowBytes(n: nat, k: nat)
    requires k <= 4
    ensures FromBigEndian(BigEndian(n, k)) == n % Modulus(k)
  {
    if k > 0 {
      LowBytes(n / 256, k - 1);
      assert BigEndian(n, k)[..k - 1] == BigEndian(n / 256, k - 1);
      NextByte(n, k - 1);
    }
  }

  lemma NextByte(n: nat, k: nat)
    requires k < 4
    ensures 256 * (n / 256 % Modulus(k)) + n % 256 == n % Modulus(k + 1)
  {
    var q, m := n / 256, Modulus(k);
    var r := 256 * (q % m) + n % 256;
    assert q == q / m * m + q % m;
    assert n == q / m * Modulus(k + 1) + r;
    Quotient(n, Modulus(k + 1), q / m, r);
  }

  /** Two frames carry the same counter payload exactly when their counters agree modulo that bound; below it, never. */
  lemma CounterRepeatsIff(size: nat, a: nat, b: nat)
    requires a < TWO_TO_32 && b < TWO_TO_32
    ensures var bound := Modulus(size);
      BigEndian(a, size) == BigEndian(b, size) <==> a % bound == b % bound
  {
    CounterValue(size, a);
    CounterValue(size, b);
    if FromBigEndian(BigEndian(a, size)) == FromBigEndian(BigEndian(b, size)) {
      SameValue(BigEndian(a, size), BigEndian(b, size));
    }
  }

  lemma {:induction false} SameValue(a: Bytes, b: Bytes)
    requires |a| == |b| && FromBigEndian(a) == FromBigEndian(b)
    ensures a == b
  {
    if a != [] {
      var n := |a| - 1;
      SameValue(a[..n], b[..n]);
      assert a == a[..n] + [a[n]] && b == b[..n] + [b[n]];
    }
  }

  /** The additions wrap at 2^32, which byte values never show. */
  method RampNext(len: nat, fcnt: nat) returns (out: Bytes)
    requires len > 0 && fcnt < TWO_TO_32
    ensures |out| == len && forall i :: 0 <= i < len ==> out[i] == (fcnt + i) % 256
  {
    var b := new byte[len];
    for i := 0 to len
      invariant forall k :: 0 <= k < i ==> b[k] == (fcnt + k) % 256
    {
      WrapThenTruncate(fcnt, i);
      b[i] := (fcnt + i % TWO_TO_32) % TWO_TO_32 % 256;
    }
    out := b[..];
  }

  lemma WrapThenTruncate(a: nat, b: nat)
    ensures (a + b % TWO_TO_32) % TWO_TO_32 % 256 == (a + b) % 256
  {
    var r := a + b % TWO_TO_32;
    assert r == 256 * (0x100_0000 * (r / TWO_TO_32)) + r % TWO_TO_32;
    DropMultiple(0x100_0000 * (r / TWO_TO_32), r % TWO_TO_32);
    assert a + b == 256 * (0x100_0000 * (b / TWO_TO_32)) + r;
    DropMultiple(0x100_0000 * (b / TWO_TO_32), r);
  }

  lemma DropMultiple(k: nat, n: nat)
    ensures (256 * k + n) % 256 == n % 256
  {
  }
}
