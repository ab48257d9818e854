/** encoding/base64 (section 4 of RFC 4648): the standard alphabet, padded or raw; line breaks are skipped on input
    and stray low bits are not checked, as Go's non-strict decoders do. */
module Base64 {
  import opened ByteStrings
  import opened Wrappers

  type sextet = x: int | 0 <= x < 64

  function Symbol(v: sextet): char {
    if v < 26 then 'A' + v as char
    else if v < 52 then 'a' + (v - 26) as char
    else if v < 62 then '0' + (v - 52) as char
    else if v == 62 then '+'
    else '/'
  }

  function Value(c: char): Option<sextet> {
    if 'A' <= c <= 'Z' then Some(c as int - 'A' as int)
    else if 'a' <= c <= 'z' then Some(c as int - 'a' as int + 26)
    else if '0' <= c <= '9' then Some(c as int - '0' as int + 52)
    else if c == '+' then Some(62)
    else if c == '/' then Some(63)
    else None
  }

  lemma ValueOfSymbol(v: sextet)
    ensures Value(Symbol(v)) == Some(v)
    ensures Symbol(v) !in {'=', '\n', '\r'}
  {
  }

  function Quad(a: byte, b: byte, c: byte): (s: string)
    ensures |s| == 4
  {
    [Symbol(a / 4), Symbol(a % 4 * 16 + b / 16), Symbol(b % 16 * 4 + c / 64), Symbol(c % 64)]
  }

  function Encode(b: Bytes): (s: string)
    ensures |s| == (|b| + 2) / 3 * 4
  {
    if |b| == 0 then ""
    else if |b| == 1 then Quad(b[0], 0, 0)[..2] + "=="
    else if |b| == 2 then Quad(b[0], b[1], 0)[..3] + "="
    else Quad(b[0], b[1], b[2]) + Encode(b[3..])
  }

  function StripLineBreaks(s: string): string {
    if s == "" then ""
    else (if s[0] in {'\n', '\r'} then "" else [s[0]]) + StripLineBreaks(s[1..])
  }

  /** The leading bytes of one group: two, three or four symbols give one, two or three bytes. */
  function Group(s: string): (r: Option<Bytes>)
    requires 2 <= |s| <= 4
    ensures r.Some? ==> |r.value| == |s| - 1
  {
    var v2 := if |s| > 2 then Value(s[2]) else Some(0);
    var v3 := if |s| > 3 then Value(s[3]) else Some(0);
    match (Value(s[0]), Value(s[1]), v2, v3)
    case (Some(w), Some(x), Some(y), Some(z)) =>
      var whole: Bytes := [w as int * 4 + x as int / 16, x as int % 16 * 16 + y as int / 4,
                           y as int % 4 * 64 + z as int];
      Some(whole[..|s| - 1])
    case _ => None
  }

  function DecodeGroups(s: string, padded: bool): Option<Bytes> {
    if s == "" then Some([])
    else if |s| >= 4 && s[3] != '=' then
      match (Group(s[..4]), DecodeGroups(s[4..], padded))
      case (Some(head), Some(tail)) => Some(head + tail)
      case _ => None
    else if padded && |s| == 4 then
      if s[2] == '=' then Group(s[..2]) else Group(s[..3])
    else if !padded && 2 <= |s| <= 3 then Group(s)
    else None
  }

  function Decode(s: string, padded: bool): Option<Bytes> {
    DecodeGroups(StripLineBreaks(s), padded)
  }

  lemma Regroup(a: byte, b: byte, c: byte)
    ensures a / 4 * 4 + (a % 4 * 16 + b / 16) / 16 == a
    ensures (a % 4 * 16 + b / 16) % 16 * 16 + (b % 16 * 4 + c / 64) / 4 == b
    ensures (b % 16 * 4 + c / 64) % 4 * 64 + c % 64 == c
  {
    assert (a % 4 * 16 + b / 16) / 16 == a % 4;
    assert (b % 16 * 4 + c / 64) / 4 == b % 16;
  }

  lemma QuadValues(a: byte, b: byte, c: byte)
    ensures var q := Quad(a, b, c);
      && Value(q[0]) == Some(a / 4) && Value(q[1]) == Some(a % 4 * 16 + b / 16)
      && Value(q[2]) == Some(b % 16 * 4 + c / 64) && Value(q[3]) == Some(c % 64)
  {
    ValueOfSymbol(a / 4);
    ValueOfSymbol(a % 4 * 16 + b / 16);
    ValueOfSymbol(b % 16 * 4 + c / 64);
    ValueOfSymbol(c % 64);
  }

  /** What the four values of a group are put together to. */
  lemma GroupIs(s: string, w: sextet, x: sextet, y: sextet, z: sextet, whole: Bytes)
    requires 2 <= |s| <= 4 && Value(s[0]) == Some(w) && Value(s[1]) == Some(x)
    requires (if |s| > 2 then Value(s[2]) else Some(0)) == Some(y)
    requires (if |s| > 3 then Value(s[3]) else Some(0)) == Some(z)
    requires |whole| == 3 && whole[0] == w as int * 4 + x as int / 16
    requires whole[1] == x as int % 16 * 16 + y as int / 4 && whole[2] == y as int % 4 * 64 + z as int
    ensures Group(s) == Some(whole[..|s| - 1])
  {
    var built: Bytes := [w as int * 4 + x as int / 16, x as int % 16 * 16 + y as int / 4, y as int % 4 * 64 + z as int];
    assert built == whole;
  }

  /** Four, three or two symbols of an encoded group give back its bytes. */
  lemma QuadRoundTrip(a: byte, b: byte, c: byte)
    ensures Group(Quad(a, b, c)) == Some([a, b, c])
    ensures c == 0 ==> Group(Quad(a, b, c)[..3]) == Some([a, b])
    ensures b == c == 0 ==> Group(Quad(a, b, c)[..2]) == Some([a])
  {
    var w, x, y, z := a / 4, a % 4 * 16 + b / 16, b % 16 * 4 + c / 64, c % 64;
    var whole: Bytes := [a, b, c];
    QuadValues(a, b, c);
    Regroup(a, b, c);
    assert whole[..3] == [a, b, c] && whole[..2] == [a, b] && whole[..1] == [a];
    GroupIs(Quad(a, b, c), w, x, y, z, whole);
    if c == 0 {
      GroupIs(Quad(a, b, c)[..3], w, x, y, z, whole);
    }
    if b == c == 0 {
      GroupIs(Quad(a, b, c)[..2], w, x, y, z, whole);
    }
  }

  predicate Unbroken(s: string) {
    forall c <- s :: c !in {'\n', '\r'}
  }

  lemma {:induction false} NothingStripped(s: string)
    requires Unbroken(s)
    ensures StripLineBreaks(s) == s
  {
    if s != "" {
      assert s[0] in s;
      assert forall c <- s[1..] :: c in s;
      NothingStripped(s[1..]);
      assert s == [s[0]] + s[1..];
    }
  }

  lemma QuadUnbroken(a: byte, b: byte, c: byte)
    ensures Unbroken(Quad(a, b, c))
  {
    ValueOfSymbol(a / 4);
    ValueOfSymbol(a % 4 * 16 + b / 16);
    ValueOfSymbol(b % 16 * 4 + c / 64);
    ValueOfSymbol(c % 64);
  }

  lemma {:induction false} NoLineBreaks(b: Bytes)
    ensures Unbroken(Encode(b))
  {
    if |b| >= 3 {
      QuadUnbroken(b[0], b[1], b[2]);
      NoLineBreaks(b[3..]);
    } else if |b| == 2 {
      QuadUnbroken(b[0], b[1], 0);
    } else if |b| == 1 {
      QuadUnbroken(b[0], 0, 0);
    }
  }

  /** A whole group in front decodes to its three bytes. */
  lemma WholeGroup(a: byte, b: byte, c: byte, rest: string, tail: Bytes, padded: bool)
    ensures DecodeGroups(rest, padded) == Some(tail) ==>
      DecodeGroups(Quad(a, b, c) + rest, padded) == Some([a, b, c] + tail)
    ensures DecodeGroups(rest, padded) == None ==> DecodeGroups(Quad(a, b, c) + rest, padded) == None
  {
    var s := Quad(a, b, c) + rest;
    QuadRoundTrip(a, b, c);
    ValueOfSymbol(c % 64);
    assert s[..4] == Quad(a, b, c) && s[4..] == rest && s[3] == Symbol(c % 64);
  }

  lemma TwoRoundTrip(b: Bytes)
    requires |b| == 2
    ensures DecodeGroups(Encode(b), true) == Some(b)
  {
    assert Encode(b) == Quad(b[0], b[1], 0)[..3] + "=";
    LastTwo(b[0], b[1]);
    assert b == [b[0], b[1]];
  }

  lemma OneRoundTrip(b: Bytes)
    requires |b| == 1
    ensures DecodeGroups(Encode(b), true) == Some(b)
  {
    assert Encode(b) == Quad(b[0], 0, 0)[..2] + "==";
    LastOne(b[0]);
    assert b == [b[0]];
  }

  lemma {:induction false} GroupsRoundTrip(b: Bytes)
    ensures DecodeGroups(Encode(b), true) == Some(b)
  {
    if |b| == 2 {
      TwoRoundTrip(b);
    } else if |b| == 1 {
      OneRoundTrip(b);
    } else if |b| >= 3 {
      GroupsRoundTrip(b[3..]);
      WholeGroup(b[0], b[1], b[2], Encode(b[3..]), b[3..], true);
      assert Encode(b) == Quad(b[0], b[1], b[2]) + Encode(b[3..]);
      assert b == [b[0], b[1], b[2]] + b[3..];
    }
  }

  lemma LastTwo(a: byte, b: byte)
    ensures DecodeGroups(Quad(a, b, 0)[..3] + "=", true) == Some([a, b])
  {
    var s := Quad(a, b, 0)[..3] + "=";
    QuadRoundTrip(a, b, 0);
    ValueOfSymbol(b % 16 * 4);
    assert s[..3] == Quad(a, b, 0)[..3];
  }

  lemma LastOne(a: byte)
    ensures DecodeGroups(Quad(a, 0, 0)[..2] + "==", true) == Some([a])
  {
    var s := Quad(a, 0, 0)[..2] + "==";
    QuadRoundTrip(a, 0, 0);
    assert s[..2] == Quad(a, 0, 0)[..2];
  }

  /** Every byte string survives encoding and decoding. */
  lemma RoundTrip(b: Bytes)
    ensures Decode(Encode(b), true) == Some(b)
  {
    NoLineBreaks(b);
    NothingStripped(Encode(b));
    GroupsRoundTrip(b);
  }

  // Without padding

  function EncodeRaw(b: Bytes): string {
    if |b| == 0 then ""
    else if |b| == 1 then Quad(b[0], 0, 0)[..2]
    else if |b| == 2 then Quad(b[0], b[1], 0)[..3]
    else Quad(b[0], b[1], b[2]) + EncodeRaw(b[3..])
  }

  lemma {:induction false} RawUnbroken(b: Bytes)
    ensures Unbroken(EncodeRaw(b))
  {
    if |b| >= 3 {
      QuadUnbroken(b[0], b[1], b[2]);
      RawUnbroken(b[3..]);
    } else if |b| == 2 {
      QuadUnbroken(b[0], b[1], 0);
    } else if |b| == 1 {
      QuadUnbroken(b[0], 0, 0);
    }
  }

  lemma LastRawTwo(a: byte, b: byte)
    ensures DecodeGroups(Quad(a, b, 0)[..3], false) == Some([a, b])
    ensures DecodeGroups(Quad(a, b, 0)[..3], true) == None
  {
    QuadRoundTrip(a, b, 0);
  }

  lemma LastRawOne(a: byte)
    ensures DecodeGroups(Quad(a, 0, 0)[..2], false) == Some([a])
    ensures DecodeGroups(Quad(a, 0, 0)[..2], true) == None
  {
    QuadRoundTrip(a, 0, 0);
  }

  lemma RawTwo(b: Bytes)
    requires |b| == 2
    ensures DecodeGroups(EncodeRaw(b), false) == Some(b) && DecodeGroups(EncodeRaw(b), true) == None
  {
    assert EncodeRaw(b) == Quad(b[0], b[1], 0)[..3];
    LastRawTwo(b[0], b[1]);
    assert b == [b[0], b[1]];
  }

  lemma RawOne(b: Bytes)
    requires |b| == 1
    ensures DecodeGroups(EncodeRaw(b), false) == Some(b) && DecodeGroups(EncodeRaw(b), true) == None
  {
    assert EncodeRaw(b) == Quad(b[0], 0, 0)[..2];
    LastRawOne(b[0]);
    assert b == [b[0]];
  }

  lemma {:induction false} RawGroups(b: Bytes)
    ensures DecodeGroups(EncodeRaw(b), false) == Some(b)
  {
    if |b| == 2 {
      RawTwo(b);
    } else if |b| == 1 {
      RawOne(b);
    } else if |b| >= 3 {
      RawGroups(b[3..]);
      WholeGroup(b[0], b[1], b[2], EncodeRaw(b[3..]), b[3..], false);
      assert EncodeRaw(b) == Quad(b[0], b[1], b[2]) + EncodeRaw(b[3..]);
      assert b == [b[0], b[1], b[2]] + b[3..];
    }
  }

  /** A padded decoder refuses what lacks its padding. */
  lemma {:induction false} RawIsNotPadded(b: Bytes)
    requires |b| % 3 != 0
    ensures DecodeGroups(EncodeRaw(b), true) == None
  {
    if |b| == 2 {
      RawTwo(b);
    } else if |b| == 1 {
      RawOne(b);
    } else {
      RawIsNotPadded(b[3..]);
      WholeGroup(b[0], b[1], b[2], EncodeRaw(b[3..]), [], true);
      assert EncodeRaw(b) == Quad(b[0], b[1], b[2]) + EncodeRaw(b[3..]);
    }
  }

  /** Every byte string survives encoding without padding; a decoder that expects padding takes it for malformed. */
  lemma RawRoundTrip(b: Bytes)
    ensures Decode(EncodeRaw(b), false) == Some(b)
    ensures |b| % 3 != 0 ==> Decode(EncodeRaw(b), true) == None
  {
    RawUnbroken(b);
    NothingStripped(EncodeRaw(b));
    RawGroups(b);
    if |b| % 3 != 0 {
      RawIsNotPadded(b);
    }
  }

  lemma {:induction false} RawLength(b: Bytes)
    ensures |EncodeRaw(b)| == |b| + (|b| + 2) / 3
  {
    if |b| >= 3 {
      RawLength(b[3..]);
    }
  }
}
