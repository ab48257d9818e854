/** internal/tag/join.go and buildJoinAccept of internal/mocklns/mocklns.go: both ends of the OTAA handshake
    (section 6.2 of LoRaWAN 1.0.3). */
module JoinFrames {
  import opened ByteStrings
  import opened Crypto
  import opened Keys
  import opened Wire
  import opened Wrappers

  datatype Provisioning = Provisioning(devEui: Eui64, joinEui: Eui64, appKey: Key)

  /** The JoinAcceptPayload of section 6.2.5, without CFList and OptNeg. */
  datatype Accept = Accept(joinNonce: nat, netId: NetId, devAddr: DevAddr, rx1DrOffset: nat, rx2Dr: nat, rxDelay: nat)

  datatype JoinResult = JoinResult(accept: Accept, keys: SessionKeys)

  // Join-request

  function JoinRequestFrame(p: Primitives, prov: Provisioning, devNonce: nat): Bytes {
    var body := JoinReq(prov.joinEui, prov.devEui, devNonce);
    EncodePhy(Phy(JoinRequest, 0, body, p.cmac(prov.appKey, Signed(JoinRequest, 0, body))))
  }

  method BuildJoinRequest(p: Primitives, prov: Provisioning, devNonce: nat) returns (frame: Bytes)
    ensures frame == JoinRequestFrame(p, prov, devNonce)
  {
    var phy := Phy(JoinRequest, 0, JoinReq(prov.joinEui, prov.devEui, devNonce), [0, 0, 0, 0]);
    phy := phy.(mic := p.cmac(prov.appKey, Signed(phy.mtype, phy.major, phy.payload)));
    frame := EncodePhy(phy);
  }

  // Join-accept

  predicate FitsAccept(a: Accept) {
    a.joinNonce < TWO_TO_24 && a.rx1DrOffset < 8 && a.rx2Dr < 16 && a.rxDelay < 16
  }

  function EncodeAccept(a: Accept): (b: Bytes)
    requires FitsAccept(a)
    ensures |b| == 12
  {
    LittleEndian(a.joinNonce, 3) + Reverse(a.netId) + Reverse(a.devAddr) + [16 * a.rx1DrOffset + a.rx2Dr, a.rxDelay]
  }

  function DecodeAccept(b: Bytes): Result<Accept> {
    if |b| != 12 then Err("12 bytes are expected")
    else if b[10] >= 128 then Err("OptNeg")
    else Ok(Accept(FromLittleEndian(b[..3]), Reverse(b[3..6]), Reverse(b[6..10]), b[10] / 16, b[10] % 16, b[11]))
  }

  lemma AcceptRoundTrip(a: Accept)
    requires FitsAccept(a)
    ensures DecodeAccept(EncodeAccept(a)) == Ok(a)
  {
    var b := EncodeAccept(a);
    Widths();
    LittleEndianRoundTrip(a.joinNonce, 3);
    ReverseTwice(a.netId);
    ReverseTwice(a.devAddr);
    assert b[..3] == LittleEndian(a.joinNonce, 3);
    assert b[3..6] == Reverse(a.netId);
    assert b[6..10] == Reverse(a.devAddr);
  }

  /** The MIC covers MHDR and the payload, but neither the JoinEUI nor the DevNonce. */
  function AcceptMic(p: Primitives, appKey: Key, mtype: MType, major: nat, payload: Bytes): Mic
    requires major < 4
  {
    p.cmac(appKey, Signed(mtype, major, Opaque(payload)))
  }

  /** The network signs, then "encrypts" payload and MIC together with AES decryption. */
  function JoinAcceptFrame(p: Primitives, appKey: Key, a: Accept): Bytes
    requires FitsAccept(a)
  {
    var payload := EncodeAccept(a);
    var cipher := p.aesInverse(appKey, payload + AcceptMic(p, appKey, JoinAccept, 0, payload));
    EncodePhy(Phy(JoinAccept, 0, Opaque(cipher[..12]), cipher[12..]))
  }

  /** The device's reading of a join-accept, given the DevNonce of its own request. */
  function AcceptResult(p: Primitives, prov: Provisioning, devNonce: nat, data: Bytes): Result<JoinResult> {
    match DecodePhy(data)
    case Err(e) => Err(e)
    case Ok(Phy(mtype, major, payload, mic)) =>
      if !payload.Opaque? || mtype.RejoinRequest? || |payload.bytes| != 12 then Err("decrypting join-accept")
      else
        var plain := p.aes(prov.appKey, payload.bytes + mic);
        match DecodeAccept(plain[..12])
        case Err(e) => Err(e)
        case Ok(a) =>
          if AcceptMic(p, prov.appKey, mtype, major, plain[..12]) != plain[12..] then Err("join-accept MIC is invalid")
          else Ok(JoinResult(a, KeysOf(p, prov.appKey, a.netId, a.joinNonce, devNonce)))
  }

  lemma DecodedJoinNonceFits(b: Bytes)
    requires DecodeAccept(b).Ok?
    ensures DecodeAccept(b).value.joinNonce < TWO_TO_24
  {
    Widths();
    FromLittleEndianBound(b[..3]);
  }

  method ParseJoinAccept(p: Primitives, prov: Provisioning, devNonce: nat, data: Bytes) returns (r: Result<JoinResult>)
    ensures r == AcceptResult(p, prov, devNonce, data)
  {
    var decoded := DecodePhy(data);
    if decoded.Err? {
      return Err(decoded.msg);
    }
    var phy := decoded.value;
    if !phy.payload.Opaque? || phy.mtype.RejoinRequest? || |phy.payload.bytes| != 12 {
      return Err("decrypting join-accept");
    }
    var plain := p.aes(prov.appKey, phy.payload.bytes + phy.mic);
    phy := phy.(payload := Opaque(plain[..12]), mic := plain[12..]);
    var fields := DecodeAccept(phy.payload.bytes);
    if fields.Err? {
      return Err(fields.msg);
    }
    if AcceptMic(p, prov.appKey, phy.mtype, phy.major, phy.payload.bytes) != phy.mic {
      return Err("join-accept MIC is invalid");
    }
    var a := fields.value;
    DecodedJoinNonceFits(phy.payload.bytes);
    var nwk := DeriveNwkSKey(p, prov.appKey, a.netId, a.joinNonce, devNonce);
    var app := DeriveAppSKey(p, prov.appKey, a.netId, a.joinNonce, devNonce);
    r := Ok(JoinResult(a, SessionKeys(nwk.value, app.value)));
  }

  /** The device reads back every field the network put in, and derives the keys of that JoinNonce and its own
      DevNonce. */
  lemma JoinAcceptRoundTrip(p: Primitives, prov: Provisioning, devNonce: nat, a: Accept)
    requires p.Lawful() && FitsAccept(a)
    ensures AcceptResult(p, prov, devNonce, JoinAcceptFrame(p, prov.appKey, a))
         == Ok(JoinResult(a, KeysOf(p, prov.appKey, a.netId, a.joinNonce, devNonce)))
  {
    var payload := EncodeAccept(a);
    var plain := payload + AcceptMic(p, prov.appKey, JoinAccept, 0, payload);
    var cipher := p.aesInverse(prov.appKey, plain);
    DecodeEncodePhy(Phy(JoinAccept, 0, Opaque(cipher[..12]), cipher[12..]));
    assert cipher[..12] + cipher[12..] == cipher;
    assert plain[..12] == payload;
    AcceptRoundTrip(a);
  }

  /** A frame whose MType is a data type is never taken for a join-accept. */
  lemma DataIsNoAccept(p: Primitives, prov: Provisioning, devNonce: nat, data: Bytes)
    requires data != [] && MTypeOf(data[0] / 32).IsData()
    ensures AcceptResult(p, prov, devNonce, data).Err?
  {
  }

  /** One accept satisfies every outstanding request of the device, but yields different keys for each:
      the handshake alone does not make both ends agree. */
  lemma AcceptDoesNotBindDevNonce(p: Primitives, prov: Provisioning, devNonce: nat, devNonce': nat, a: Accept)
    requires p.Lawful() && FitsAccept(a)
    requires devNonce < TWO_TO_16 && devNonce' < TWO_TO_16
    ensures var r := AcceptResult(p, prov, devNonce, JoinAcceptFrame(p, prov.appKey, a));
            var r' := AcceptResult(p, prov, devNonce', JoinAcceptFrame(p, prov.appKey, a));
            r.Ok? && r'.Ok? && (r.value.keys == r'.value.keys <==> devNonce == devNonce')
  {
    JoinAcceptRoundTrip(p, prov, devNonce, a);
    JoinAcceptRoundTrip(p, prov, devNonce', a);
    SessionKeyInjective(p, prov.appKey, NWK_SKEY, a.netId, a.joinNonce, devNonce, NWK_SKEY, a.netId, a.joinNonce,
        devNonce');
  }
}
