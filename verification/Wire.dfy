/** The PHYPayload layout of LoRaWAN 1.0.3, sections 4.1 to 4.4 and 6.2.4, as the simulator's frame library reads
    and writes it. */
module Wire {
  import opened ByteStrings
  import opened Crypto
  import opened Wrappers

  type DevAddr = b: Bytes | |b| == 4 witness [0, 0, 0, 0]
  type Eui64 = b: Bytes | |b| == 8 witness [0, 0, 0, 0, 0, 0, 0, 0]

  datatype MType =
    | JoinRequest | JoinAccept | UnconfirmedDataUp | UnconfirmedDataDown
    | ConfirmedDataUp | ConfirmedDataDown | RejoinRequest | Proprietary
  {
    predicate IsData() {
      UnconfirmedDataUp? || UnconfirmedDataDown? || ConfirmedDataUp? || ConfirmedDataDown?
    }

    function Code(): (n: nat)
      ensures n < 8
    {
      match this
      case JoinRequest => 0
      case JoinAccept => 1
      case UnconfirmedDataUp => 2
      case UnconfirmedDataDown => 3
      case ConfirmedDataUp => 4
      case ConfirmedDataDown => 5
      case RejoinRequest => 6
      case Proprietary => 7
    }
  }

  function MTypeOf(n: nat): (m: MType)
    requires n < 8
    ensures m.Code() == n
  {
    match n
    case 0 => JoinRequest
    case 1 => JoinAccept
    case 2 => UnconfirmedDataUp
    case 3 => UnconfirmedDataDown
    case 4 => ConfirmedDataUp
    case 5 => ConfirmedDataDown
    case 6 => RejoinRequest
    case _ => Proprietary
  }

  /** `pending` is FPending in a downlink and ClassB in an uplink: the same bit. */
  datatype FCtrl = FCtrl(adr: bool, adrAckReq: bool, ack: bool, pending: bool)

  const NO_FLAGS := FCtrl(false, false, false, false)

  datatype MacFrame = MacFrame(
    devAddr: DevAddr, fctrl: FCtrl, fcnt: nat, fopts: Bytes, fport: Option<byte>, frm: Bytes)

  datatype Payload =
    | JoinReq(joinEui: Eui64, devEui: Eui64, devNonce: nat)
    | Data(mac: MacFrame)
    | Opaque(bytes: Bytes)

  datatype Phy = Phy(mtype: MType, major: nat, payload: Payload, mic: Mic)

  // Encoding

  function MhdrByte(mtype: MType, major: nat): byte
    requires major < 4
  {
    32 * mtype.Code() + major
  }

  function Bit(b: bool, weight: nat): nat {
    if b then weight else 0
  }

  function FCtrlByte(f: FCtrl, foptsLen: nat): byte {
    Bit(f.adr, 0x80) + Bit(f.adrAckReq, 0x40) + Bit(f.ack, 0x20) + Bit(f.pending, 0x10) + foptsLen % 16
  }

  function PortAndPayload(m: MacFrame): Bytes {
    match m.fport
    case None => []
    case Some(p) => [p] + m.frm
  }

  function EncodeMac(m: MacFrame): Bytes {
    Reverse(m.devAddr) + [FCtrlByte(m.fctrl, |m.fopts|)] + LittleEndian(m.fcnt, 2) + m.fopts + PortAndPayload(m)
  }

  function EncodePayload(p: Payload): Bytes {
    match p
    case JoinReq(joinEui, devEui, devNonce) => Reverse(joinEui) + Reverse(devEui) + LittleEndian(devNonce, 2)
    case Data(m) => EncodeMac(m)
    case Opaque(b) => b
  }

  /** MHDR and MACPayload: the part of the frame the MIC covers. */
  function Signed(mtype: MType, major: nat, p: Payload): Bytes
    requires major < 4
  {
    [MhdrByte(mtype, major)] + EncodePayload(p)
  }

  function EncodePhy(phy: Phy): Bytes
    requires phy.major < 4
  {
    Signed(phy.mtype, phy.major, phy.payload) + phy.mic
  }

  // Decoding

  function DecodeFCtrl(b: byte): FCtrl {
    var high := b / 16;
    FCtrl(high >= 8, high % 8 >= 4, high % 4 >= 2, high % 2 == 1)
  }

  function DecodeMac(b: Bytes): (r: Result<MacFrame>) {
    if |b| < 7 then Err("at least 7 bytes needed to decode FHDR")
    else
      var n := b[4] % 16;
      if |b| < 7 + n then Err("not enough bytes to decode FHDR")
      else
        var fport := if |b| > 7 + n then Some(b[7 + n]) else None;
        var frm := if |b| > 7 + n then b[8 + n..] else [];
        if fport == Some(0) && n > 0 && frm != [] then Err("FPort must not be 0 when FOpts are set")
        else Ok(MacFrame(Reverse(b[..4]), DecodeFCtrl(b[4]), FromLittleEndian(b[5..7]), b[7..7 + n], fport, frm))
  }

  function DecodePayload(mtype: MType, b: Bytes): Result<Payload> {
    if mtype.JoinRequest? then
      if |b| != 18 then Err("18 bytes are expected")
      else Ok(JoinReq(Reverse(b[..8]), Reverse(b[8..16]), FromLittleEndian(b[16..])))
    else if mtype.IsData() then
      match DecodeMac(b)
      case Ok(m) => Ok(Data(m))
      case Err(e) => Err(e)
    else Ok(Opaque(b))
  }

  function DecodePhy(raw: Bytes): Result<Phy> {
    if |raw| < 5 then Err("at least 5 bytes needed to decode PHYPayload")
    else
      var mtype := MTypeOf(raw[0] / 32);
      match DecodePayload(mtype, raw[1..|raw| - 4])
      case Ok(p) => Ok(Phy(mtype, raw[0] % 4, p, raw[|raw| - 4..]))
      case Err(e) => Err(e)
  }

  // Round trips

  /** The frames the layout can carry without loss. */
  predicate FitsMac(m: MacFrame) {
    && |m.fopts| < 16
    && m.fcnt < TWO_TO_16
    && (m.fport.None? ==> m.frm == [])
    && !(m.fport == Some(0) && m.fopts != [] && m.frm != [])
  }

  predicate FitsPayload(mtype: MType, p: Payload) {
    match p
    case JoinReq(_, _, devNonce) => mtype.JoinRequest? && devNonce < TWO_TO_16
    case Data(m) => mtype.IsData() && FitsMac(m)
    case Opaque(_) => !mtype.JoinRequest? && !mtype.IsData()
  }

  predicate Fits(phy: Phy) {
    phy.major < 4 && FitsPayload(phy.mtype, phy.payload)
  }

  lemma FCtrlRoundTrip(f: FCtrl, n: nat)
    requires n < 16
    ensures DecodeFCtrl(FCtrlByte(f, n)) == f
    ensures FCtrlByte(f, n) % 16 == n
  {
    var high := Bit(f.adr, 8) + Bit(f.adrAckReq, 4) + Bit(f.ack, 2) + Bit(f.pending, 1);
    assert FCtrlByte(f, n) == 16 * high + n;
    assert FCtrlByte(f, n) / 16 == high;
  }

  lemma FCtrlByteRoundTrip(b: byte)
    ensures FCtrlByte(DecodeFCtrl(b), b % 16) == b
  {
  }

  /** The MHDR byte rebuilt from MType and Major is the original one exactly when the reserved bits were zero. */
  lemma MhdrRoundTrip(b: byte)
    ensures MhdrByte(MTypeOf(b / 32), b % 4) == b <==> b / 4 % 8 == 0
  {
    var q := b / 4;
    assert b == 4 * q + b % 4;
    assert q == 8 * (q / 8) + q % 8;
    assert q / 8 == b / 32;
  }

  /** Only the low 16 bits of the counter survive. */
  lemma DecodeEncodeMac(m: MacFrame)
    requires FitsMac(m.(fcnt := m.fcnt % TWO_TO_16))
    ensures DecodeMac(EncodeMac(m)) == Ok(m.(fcnt := m.fcnt % TWO_TO_16))
  {
    var b, n := EncodeMac(m), |m.fopts|;
    FCtrlRoundTrip(m.fctrl, n);
    LowSixteenBits(m.fcnt);
    ReverseTwice(m.devAddr);
    assert b[..4] == Reverse(m.devAddr);
    assert b[5..7] == LittleEndian(m.fcnt, 2);
    assert b[7..7 + n] == m.fopts;
    assert b[7 + n..] == PortAndPayload(m);
    if m.fport.Some? {
      assert b[7 + n] == b[7 + n..][0];
      assert b[8 + n..] == b[7 + n..][1..];
    }
  }

  lemma EncodeDecodeMac(b: Bytes)
    requires DecodeMac(b).Ok?
    ensures FitsMac(DecodeMac(b).value)
    ensures EncodeMac(DecodeMac(b).value) == b
  {
    var m, n := DecodeMac(b).value, b[4] % 16;
    FCtrlByteRoundTrip(b[4]);
    Widths();
    FromLittleEndianBound(b[5..7]);
    FromLittleEndianRoundTrip(b[5..7]);
    ReverseTwice(b[..4]);
    if |b| > 7 + n {
      assert PortAndPayload(m) == b[7 + n..];
    }
    assert b == b[..4] + [b[4]] + b[5..7] + b[7..7 + n] + b[7 + n..];
  }

  lemma DecodeEncodeJoin(joinEui: Eui64, devEui: Eui64, devNonce: nat)
    requires devNonce < TWO_TO_16
    ensures DecodePayload(JoinRequest, EncodePayload(JoinReq(joinEui, devEui, devNonce)))
         == Ok(JoinReq(joinEui, devEui, devNonce))
  {
    var b := EncodePayload(JoinReq(joinEui, devEui, devNonce));
    LowSixteenBits(devNonce);
    ReverseTwice(joinEui);
    ReverseTwice(devEui);
    assert b[..8] == Reverse(joinEui);
    assert b[8..16] == Reverse(devEui);
    assert b[16..] == LittleEndian(devNonce, 2);
  }

  lemma EncodeDecodePayload(mtype: MType, b: Bytes)
    requires DecodePayload(mtype, b).Ok?
    ensures EncodePayload(DecodePayload(mtype, b).value) == b
    ensures FitsPayload(mtype, DecodePayload(mtype, b).value)
  {
    if mtype.JoinRequest? {
      ReverseTwice(b[..8]);
      ReverseTwice(b[8..16]);
      Widths();
      FromLittleEndianBound(b[16..]);
      FromLittleEndianRoundTrip(b[16..]);
      assert b == b[..8] + b[8..16] + b[16..];
    } else if mtype.IsData() {
      EncodeDecodeMac(b);
    }
  }

  /** Splitting an encoded frame gives back its header, payload bytes and MIC. */
  lemma SplitPhy(phy: Phy)
    requires phy.major < 4
    ensures var raw := EncodePhy(phy);
      && |raw| >= 5
      && raw[0] / 32 == phy.mtype.Code() && MTypeOf(raw[0] / 32) == phy.mtype && raw[0] % 4 == phy.major
      && raw[0] / 4 % 8 == 0
      && raw[1..|raw| - 4] == EncodePayload(phy.payload)
      && raw[|raw| - 4..] == phy.mic
      && raw[..|raw| - 4] == Signed(phy.mtype, phy.major, phy.payload)
  {
  }

  /** Decoding undoes encoding on every frame that fits. */
  lemma DecodeEncodePhy(phy: Phy)
    requires Fits(phy)
    ensures DecodePhy(EncodePhy(phy)) == Ok(phy)
  {
    SplitPhy(phy);
    match phy.payload
    case JoinReq(joinEui, devEui, devNonce) => DecodeEncodeJoin(joinEui, devEui, devNonce);
    case Data(m) =>
      assert m.(fcnt := m.fcnt % TWO_TO_16) == m;
      DecodeEncodeMac(m);
    case Opaque(_) =>
  }

  /** Encoding undoes decoding exactly when the three reserved MHDR bits are zero. */
  lemma EncodeDecodePhy(raw: Bytes)
    requires DecodePhy(raw).Ok?
    ensures Fits(DecodePhy(raw).value)
    ensures EncodePhy(DecodePhy(raw).value) == raw <==> raw[0] / 4 % 8 == 0
    ensures EncodePhy(DecodePhy(raw).value)[1..] == raw[1..]
  {
    var phy := DecodePhy(raw).value;
    EncodeDecodePayload(phy.mtype, raw[1..|raw| - 4]);
    MhdrRoundTrip(raw[0]);
    var rest := raw[1..|raw| - 4] + raw[|raw| - 4..];
    assert rest == raw[1..];
    assert raw == [raw[0]] + rest;
    assert EncodePhy(phy) == [MhdrByte(phy.mtype, phy.major)] + rest;
  }
}
