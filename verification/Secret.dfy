/** internal/secret/secret.go: authenticated encryption of single columns, each bound to the place it belongs to. */
module Secret {
  import opened ByteStrings
  import opened Wrappers
  import Base64
  import Hex

  const PREFIX: string := "v1:"
  const KEY_LEN := 32
  const NONCE_SIZE := 12

  type GcmNonce = b: Bytes | |b| == NONCE_SIZE witness seq(12, _ => 0)

  /** AES-256-GCM under the configured key; plaintext and associated data are Go strings taken as bytes. */
  datatype Aead = Aead(
    seal: (GcmNonce, string, string) -> Bytes,
    open: (GcmNonce, Bytes, string) -> Option<string>)
  {
    /** What was sealed opens to the plaintext under the sealing data, and under no other. */
    ghost predicate Lawful() {
      forall n: GcmNonce, plain: string, aad: string, aad': string ::
        open(n, seal(n, plain, aad), aad') == if aad == aad' then Some(plain) else None
    }
  }

  datatype Cipher = Enabled(aead: Aead) | InsecureDisabled

  /** The configured key: 64 hex digits, or base64 with or without padding, of exactly 32 bytes. */
  function DecodeKey(s: string): (r: Option<Bytes>)
    ensures r.Some? ==> |r.value| == KEY_LEN
  {
    if |s| == 2 * KEY_LEN && Hex.Decode(s).Some? then Hex.Decode(s)
    else
      var std := Base64.Decode(s, true);
      if std.Some? && |std.value| == KEY_LEN then std
      else
        var raw := Base64.Decode(s, false);
        if raw.Some? && |raw.value| == KEY_LEN then raw else None
  }

  /** Every spelling of a key is understood: hex, and base64 with or without padding. */
  lemma KeySpellings(key: Bytes)
    requires |key| == KEY_LEN
    ensures DecodeKey(Hex.Encode(key)) == Some(key)
    ensures DecodeKey(Base64.Encode(key)) == Some(key)
    ensures DecodeKey(Base64.EncodeRaw(key)) == Some(key)
  {
    Hex.RoundTrip(key);
    Base64.RoundTrip(key);
    Base64.RawRoundTrip(key);
    SpellingLengths(key);
    Spelling(Hex.Encode(key), Base64.Encode(key), Base64.EncodeRaw(key), key);
  }

  lemma SpellingLengths(key: Bytes)
    requires |key| == KEY_LEN
    ensures |Hex.Encode(key)| == 64 && |Base64.Encode(key)| == 44 && |Base64.EncodeRaw(key)| == 43
  {
    assert (|key| + 2) / 3 == 11;
    Base64.RawLength(key);
  }

  lemma Spelling(hex: string, base64: string, raw: string, key: Bytes)
    requires |key| == KEY_LEN && |hex| == 64 && |base64| == 44 && |raw| == 43
    requires Hex.Decode(hex) == Some(key) && Base64.Decode(base64, true) == Some(key)
    requires Base64.Decode(raw, false) == Some(key) && Base64.Decode(raw, true) == None
    ensures DecodeKey(hex) == Some(key) && DecodeKey(base64) == Some(key) && DecodeKey(raw) == Some(key)
  {
  }

  predicate HasPrefix(s: string) {
    PREFIX <= s
  }

  function Encrypt(c: Cipher, nonce: GcmNonce, plain: string, aad: string): string {
    match c
    case InsecureDisabled => plain
    case Enabled(aead) => PREFIX + Base64.Encode(nonce + aead.seal(nonce, plain, aad))
  }

  function Decrypt(c: Cipher, stored: string, aad: string): Result<string> {
    if !HasPrefix(stored) then
      if c.Enabled? then Err("secret: value is not encrypted but a key is configured") else Ok(stored)
    else if c.InsecureDisabled? then Err("secret: value is encrypted but no key is configured")
    else
      match Base64.Decode(stored[|PREFIX|..], true)
      case None => Err("decoding ciphertext")
      case Some(raw) =>
        if |raw| < NONCE_SIZE then Err("ciphertext too short")
        else
          match c.aead.open(raw[..NONCE_SIZE], raw[NONCE_SIZE..], aad)
          case None => Err("decrypting")
          case Some(plain) => Ok(plain)
  }

  /** An encrypted value opens under the data it was bound to, and under no other; a passed-through value
      is read back unless it looks encrypted. */
  lemma OpensOnlyInPlace(c: Cipher, nonce: GcmNonce, plain: string, aad: string, aad': string)
    requires c.Enabled? ==> c.aead.Lawful()
    ensures c.Enabled? ==>
      Decrypt(c, Encrypt(c, nonce, plain, aad), aad') == if aad == aad' then Ok(plain) else Err("decrypting")
    ensures c.InsecureDisabled? ==>
      (Decrypt(c, Encrypt(c, nonce, plain, aad), aad') == Ok(plain) <==> !HasPrefix(plain))
  {
    if c.Enabled? {
      var raw := nonce + c.aead.seal(nonce, plain, aad);
      var stored := Encrypt(c, nonce, plain, aad);
      assert stored[|PREFIX|..] == Base64.Encode(raw);
      Base64.RoundTrip(raw);
      assert raw[..NONCE_SIZE] == nonce;
      assert raw[NONCE_SIZE..] == c.aead.seal(nonce, plain, aad);
    }
  }

  // The data a column is bound to

  function Digit(n: nat): char
    requires n < 10
  {
    '0' + n as char
  }

  /** fmt's %d of a row id. */
  function Decimal(n: nat): (s: string)
    ensures s != "" && forall c <- s :: '0' <= c <= '9'
  {
    if n < 10 then [Digit(n)] else Decimal(n / 10) + [Digit(n % 10)]
  }

  lemma {:induction false} DecimalInjective(m: nat, n: nat)
    requires Decimal(m) == Decimal(n)
    ensures m == n
  {
    var s, t := Decimal(m), Decimal(n);
    assert s[|s| - 1] == Digit(m % 10) && t[|t| - 1] == Digit(n % 10);
    if m >= 10 && n >= 10 {
      assert s[..|s| - 1] == Decimal(m / 10);
      assert t[..|t| - 1] == Decimal(n / 10);
      DecimalInjective(m / 10, n / 10);
    }
  }

  const SESSION_TAG: string := "session|"
  const TAG_TAG: string := "tag|"
  const BAR: string := "|"

  function SessionAad(tagId: nat, column: string): string {
    SESSION_TAG + Decimal(tagId) + BAR + column
  }

  function TagAad(devEui: string, column: string): string {
    TAG_TAG + devEui + BAR + column
  }

  /** A bar-free field in front of a bar is determined by the whole. */
  lemma FirstField(a: string, b: string, x: string, y: string)
    requires '|' !in a && '|' !in b
    requires a + BAR + x == b + BAR + y
    ensures a == b && x == y
  {
    var s, t := a + BAR + x, b + BAR + y;
    assert s[|a|] == '|' && t[|b|] == '|';
    assert forall k :: 0 <= k < |b| ==> t[k] == b[k];
    assert forall k :: 0 <= k < |a| ==> s[k] == a[k];
    assert |a| == |b|;
    assert s[..|a|] == a && t[..|b|] == b;
    assert s[|a| + 1..] == x && t[|b| + 1..] == y;
  }

  /** Different rows or columns of the session table are bound to different data. */
  lemma SessionAadInjective(i: nat, c: string, j: nat, d: string)
    ensures SessionAad(i, c) == SessionAad(j, d) <==> i == j && c == d
  {
    if SessionAad(i, c) == SessionAad(j, d) {
      var s, t := SessionAad(i, c), SessionAad(j, d);
      assert s[|SESSION_TAG|..] == Decimal(i) + BAR + c;
      assert t[|SESSION_TAG|..] == Decimal(j) + BAR + d;
      FirstField(Decimal(i), Decimal(j), c, d);
      DecimalInjective(i, j);
    }
  }

  lemma TagAadInjective(a: string, b: string, column: string)
    ensures TagAad(a, column) == TagAad(b, column) <==> a == b
  {
    var s, t := TagAad(a, column), TagAad(b, column);
    if s == t {
      assert s[|TAG_TAG|..|s| - 1 - |column|] == a;
      assert t[|TAG_TAG|..|t| - 1 - |column|] == b;
    }
  }

  /** The two tables never share binding data. */
  lemma TablesDisjoint(i: nat, c: string, devEui: string, d: string)
    ensures SessionAad(i, c) != TagAad(devEui, d)
  {
    assert SessionAad(i, c)[0] == 's' && TagAad(devEui, d)[0] == 't';
  }
}
