/** internal/tag/keys.go: session-key derivation for LoRaWAN 1.0.x. */
module Keys {
  import opened ByteStrings
  import opened Crypto
  import opened Wrappers

  type NetId = b: Bytes | |b| == 3 witness [0, 0, 0]

  const NWK_SKEY: byte := 1
  const APP_SKEY: byte := 2

  datatype SessionKeys = SessionKeys(nwk: Key, app: Key)

  /** type | JoinNonce | NetID | DevNonce | zero padding, integers little-endian. */
  function KeyBlock(typ: byte, netId: NetId, joinNonce: nat, devNonce: nat): Block {
    [typ] + LittleEndian(joinNonce, 3) + Reverse(netId) + LittleEndian(devNonce, 2) + [0, 0, 0, 0, 0, 0, 0]
  }

  /** The derived key; a JoinNonce that needs more than 24 bits cannot be marshalled. */
  function SessionKey(p: Primitives, typ: byte, appKey: Key, netId: NetId, joinNonce: nat, devNonce: nat): Result<Key> {
    if joinNonce >= TWO_TO_24 then Err("marshal joinNonce")
    else Ok(p.aes(appKey, KeyBlock(typ, netId, joinNonce, devNonce)))
  }

  /** Go's copy(dst[at:], src) when `src` fits. */
  method CopyInto(dst: array<byte>, at: nat, src: Bytes)
    requires at + |src| <= dst.Length
    modifies dst
    ensures dst[..] == old(dst[..at]) + src + old(dst[at + |src|..])
  {
    var i := 0;
    ghost var before := dst[..];
    while i < |src|
      invariant 0 <= i <= |src|
      invariant dst[..] == before[..at] + src[..i] + before[at + i..]
    {
      ghost var now := dst[..];
      dst[at + i] := src[i];
      assert dst[..] == now[at + i := src[i]];
      CopiedOne(before, at, src, i);
      i := i + 1;
    }
    assert src[..i] == src;
  }

  lemma CopiedOne(before: Bytes, at: nat, src: Bytes, i: nat)
    requires i < |src| && at + |src| <= |before|
    ensures (before[..at] + src[..i] + before[at + i..])[at + i := src[i]]
         == before[..at] + src[..i + 1] + before[at + i + 1..]
  {
    assert src[..i + 1] == src[..i] + [src[i]];
    assert before[at + i..] == [before[at + i]] + before[at + i + 1..];
  }

  method DeriveSKey(p: Primitives, typ: byte, appKey: Key, netId: NetId, joinNonce: nat, devNonce: nat)
    returns (r: Result<Key>)
    ensures r == SessionKey(p, typ, appKey, netId, joinNonce, devNonce)
  {
    var netIdB := Reverse(netId);
    if joinNonce >= TWO_TO_24 {
      return Err("marshal joinNonce");
    }
    var b := new byte[16](_ => 0);
    b[0] := typ;
    ghost var joinNonceB, devNonceB := LittleEndian(joinNonce, 3), LittleEndian(devNonce, 2);
    CopyInto(b, 1, LittleEndian(joinNonce, 3));
    assert b[..] == [typ] + joinNonceB + seq(12, _ => 0);
    CopyInto(b, 4, netIdB);
    assert b[..] == [typ] + joinNonceB + netIdB + seq(9, _ => 0);
    CopyInto(b, 7, LittleEndian(devNonce, 2));
    assert b[..] == [typ] + joinNonceB + netIdB + devNonceB + seq(7, _ => 0);
    assert b[..] == KeyBlock(typ, netId, joinNonce, devNonce);
    r := Ok(p.aes(appKey, b[..]));
  }

  method DeriveNwkSKey(p: Primitives, appKey: Key, netId: NetId, joinNonce: nat, devNonce: nat) returns (r: Result<Key>)
    ensures r == SessionKey(p, NWK_SKEY, appKey, netId, joinNonce, devNonce)
  {
    r := DeriveSKey(p, NWK_SKEY, appKey, netId, joinNonce, devNonce);
  }

  method DeriveAppSKey(p: Primitives, appKey: Key, netId: NetId, joinNonce: nat, devNonce: nat) returns (r: Result<Key>)
    ensures r == SessionKey(p, APP_SKEY, appKey, netId, joinNonce, devNonce)
  {
    r := DeriveSKey(p, APP_SKEY, appKey, netId, joinNonce, devNonce);
  }

  /** Both session keys of one join. */
  function KeysOf(p: Primitives, appKey: Key, netId: NetId, joinNonce: nat, devNonce: nat): SessionKeys {
    SessionKeys(p.aes(appKey, KeyBlock(NWK_SKEY, netId, joinNonce, devNonce)),
                p.aes(appKey, KeyBlock(APP_SKEY, netId, joinNonce, devNonce)))
  }

  // What a key reveals about the join it came from, to whoever can invert AES under the AppKey.

  function KeyType(p: Primitives, appKey: Key, k: Key): byte {
    p.aesInverse(appKey, k)[0]
  }

  function KeyJoinNonce(p: Primitives, appKey: Key, k: Key): nat {
    FromLittleEndian(p.aesInverse(appKey, k)[1..4])
  }

  function KeyDevNonce(p: Primitives, appKey: Key, k: Key): nat {
    FromLittleEndian(p.aesInverse(appKey, k)[7..9])
  }

  /** The block layout loses nothing: every input can be read back from a derived key. */
  lemma KeyOrigin(p: Primitives, typ: byte, appKey: Key, netId: NetId, joinNonce: nat, devNonce: nat)
    requires p.Lawful()
    requires joinNonce < TWO_TO_24 && devNonce < TWO_TO_16
    ensures var k := p.aes(appKey, KeyBlock(typ, netId, joinNonce, devNonce));
      && KeyType(p, appKey, k) == typ
      && KeyJoinNonce(p, appKey, k) == joinNonce
      && KeyDevNonce(p, appKey, k) == devNonce
      && Reverse(p.aesInverse(appKey, k)[4..7]) == netId
  {
    var b := KeyBlock(typ, netId, joinNonce, devNonce);
    Widths();
    assert b[1..4] == LittleEndian(joinNonce, 3);
    assert b[4..7] == Reverse(netId);
    assert b[7..9] == LittleEndian(devNonce, 2);
    LittleEndianRoundTrip(joinNonce, 3);
    LittleEndianRoundTrip(devNonce, 2);
    ReverseTwice(netId);
  }

  /** Two derivations under one AppKey give the same key exactly when all their inputs agree. */
  lemma SessionKeyInjective(
    p: Primitives, appKey: Key,
    typ: byte, netId: NetId, joinNonce: nat, devNonce: nat,
    typ': byte, netId': NetId, joinNonce': nat, devNonce': nat)
    requires p.Lawful()
    requires joinNonce < TWO_TO_24 && joinNonce' < TWO_TO_24
    requires devNonce < TWO_TO_16 && devNonce' < TWO_TO_16
    ensures SessionKey(p, typ, appKey, netId, joinNonce, devNonce)
         == SessionKey(p, typ', appKey, netId', joinNonce', devNonce')
       <==> typ == typ' && netId == netId' && joinNonce == joinNonce' && devNonce == devNonce'
  {
    KeyOrigin(p, typ, appKey, netId, joinNonce, devNonce);
    KeyOrigin(p, typ', appKey, netId', joinNonce', devNonce');
  }
}
