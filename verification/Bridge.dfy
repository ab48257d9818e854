/** internal/gateway/metadata.go: a tag's PHYPayload becomes a Basic Station message, and loses nothing on the way. */
module Bridge {
  import opened ByteStrings
  import opened Crypto
  import opened Wire
  import opened Wrappers
  import DataFrames
  import Hex
  import JoinFrames

  datatype UpInfo = UpInfo(rctx: int, xtime: int, rssi: real, snr: real)

  function SynthUpInfo(rctx: int, xtime: int): UpInfo {
    UpInfo(rctx, xtime, -42.0, 9.0)
  }

  datatype Jreq = Jreq(
    mhdr: byte, joinEui: string, devEui: string, devNonce: nat, mic: int, dr: byte, freq: nat, info: UpInfo)

  datatype Updf = Updf(
    mhdr: byte, devAddr: int, fctrl: byte, fcnt: nat, fopts: string, fport: int, frmPayload: string, mic: int,
    dr: byte, freq: nat, info: UpInfo)

  datatype ParsedUplink =
    | Join(jreq: Jreq, devEui: string)
    | DataUp(updf: Updf, devAddr: string)

  /** binary.LittleEndian.Uint32, converted to int32. */
  function SignedLittleEndian(b: Bytes): int
    requires |b| == 4
  {
    Widths();
    FromLittleEndianBound(b);
    ToInt32(FromLittleEndian(b))
  }

  /** The four bytes of a signed field, least significant first. */
  function UnsignedBytes(n: int): Bytes
    requires -TWO_TO_31 <= n < TWO_TO_31
  {
    LittleEndian(FromInt32(n), 4)
  }

  lemma SignedRoundTrip(b: Bytes)
    requires |b| == 4
    ensures -TWO_TO_31 <= SignedLittleEndian(b) < TWO_TO_31
    ensures UnsignedBytes(SignedLittleEndian(b)) == b
  {
    Widths();
    FromLittleEndianBound(b);
    FromLittleEndianRoundTrip(b);
  }

  /** The flag bits are set one by one on a local byte, then FOptsLen is merged into the low half. */
  method UplinkFCtrl(f: FCtrl, foptsLen: nat) returns (b: byte)
    ensures b == FCtrlByte(f, foptsLen)
    ensures foptsLen < 16 ==> DecodeFCtrl(b) == f && b % 16 == foptsLen
  {
    b := 0;
    if f.adr {
      b := b + 0x80;
    }
    if f.adrAckReq {
      b := b + 0x40;
    }
    if f.ack {
      b := b + 0x20;
    }
    if f.pending {
      b := b + 0x10;
    }
    b := b + foptsLen % 16;
    if foptsLen < 16 {
      FCtrlRoundTrip(f, foptsLen);
    }
  }

  /** The payloads that marshal, concatenated in order; a payload that does not is skipped. */
  function Concatenated(payloads: seq<Option<Bytes>>): Bytes {
    if payloads == [] then []
    else
      var last := payloads[|payloads| - 1];
      Concatenated(payloads[..|payloads| - 1]) + if last.Some? then last.value else []
  }

  method MarshalPayloads(payloads: seq<Option<Bytes>>) returns (out: Bytes)
    ensures out == Concatenated(payloads)
  {
    out := [];
    for i := 0 to |payloads|
      invariant out == Concatenated(payloads[..i])
    {
      assert payloads[..i + 1][..i] == payloads[..i];
      if payloads[i].Some? {
        out := out + payloads[i].value;
      }
    }
    assert payloads[..|payloads|] == payloads;
  }

  function JreqOf(phy: Phy, dr: byte, freq: nat, info: UpInfo): Jreq
    requires phy.payload.JoinReq? && phy.major < 4
  {
    Jreq(MhdrByte(phy.mtype, phy.major), Hex.Encode(phy.payload.joinEui), Hex.Encode(phy.payload.devEui),
         phy.payload.devNonce, SignedLittleEndian(phy.mic), dr, freq, info)
  }

  /** DevAddr is read big-endian from the Go array, whose order is the reverse of the wire's. */
  function UpdfOf(phy: Phy, dr: byte, freq: nat, info: UpInfo): Updf
    requires phy.payload.Data? && phy.major < 4
  {
    var m := phy.payload.mac;
    Updf(MhdrByte(phy.mtype, phy.major), SignedLittleEndian(Reverse(m.devAddr)), FCtrlByte(m.fctrl, |m.fopts|), m.fcnt,
         Hex.Encode(m.fopts), if m.fport.Some? then m.fport.value else -1,
         Hex.Encode(m.frm), SignedLittleEndian(phy.mic),
         dr, freq, info)
  }

  function ParseRaw(raw: Bytes, freq: nat, dr: byte, info: UpInfo): Result<ParsedUplink> {
    match DecodePhy(raw)
    case Err(e) => Err(e)
    case Ok(phy) =>
      if phy.mtype.JoinRequest? then
        Ok(Join(JreqOf(phy, dr, freq, info), Hex.Encode(phy.payload.devEui)))
      else if phy.mtype.UnconfirmedDataUp? || phy.mtype.ConfirmedDataUp? then
        Ok(DataUp(UpdfOf(phy, dr, freq, info), Hex.Encode(phy.payload.mac.devAddr)))
      else Err("unsupported uplink mtype")
  }

  function ParseUplink(phyHex: string, freq: nat, dr: byte, info: UpInfo): Result<ParsedUplink> {
    match Hex.Decode(phyHex)
    case None => Err("decoding phy hex")
    case Some(raw) => ParseRaw(raw, freq, dr, info)
  }

  // The bridge invariant

  /** A frame rebuilt from the fields of an Updf. */
  function RebuildData(u: Updf): Option<Bytes> {
    match (Hex.Decode(u.fopts), Hex.Decode(u.frmPayload))
    case (Some(fopts), Some(frm)) =>
      if -TWO_TO_31 <= u.devAddr < TWO_TO_31 && -TWO_TO_31 <= u.mic < TWO_TO_31 && -1 <= u.fport < 256 then
        var port: Bytes := if u.fport == -1 then [] else [u.fport];
        Some([u.mhdr] + UnsignedBytes(u.devAddr) + [u.fctrl] + LittleEndian(u.fcnt, 2) + fopts + port + frm
             + UnsignedBytes(u.mic))
      else None
    case _ => None
  }

  /** A frame rebuilt from the fields of a Jreq. */
  function RebuildJoin(j: Jreq): Option<Bytes> {
    match (Hex.Decode(j.joinEui), Hex.Decode(j.devEui))
    case (Some(joinEui), Some(devEui)) =>
      if -TWO_TO_31 <= j.mic < TWO_TO_31 then
        Some([j.mhdr] + Reverse(joinEui) + Reverse(devEui) + LittleEndian(j.devNonce, 2) + UnsignedBytes(j.mic))
      else None
    case _ => None
  }

  function Rebuild(u: ParsedUplink): Option<Bytes> {
    match u
    case Join(j, _) => RebuildJoin(j)
    case DataUp(d, _) => RebuildData(d)
  }

  lemma RebuildDataFrame(phy: Phy, dr: byte, freq: nat, info: UpInfo)
    requires phy.payload.Data? && Fits(phy)
    ensures RebuildData(UpdfOf(phy, dr, freq, info)) == Some(EncodePhy(phy))
  {
    var m, u := phy.payload.mac, UpdfOf(phy, dr, freq, info);
    Hex.RoundTrip(m.fopts);
    Hex.RoundTrip(m.frm);
    SignedRoundTrip(Reverse(m.devAddr));
    SignedRoundTrip(phy.mic);
    var port: Bytes := if u.fport == -1 then [] else [u.fport];
    assert PortAndPayload(m) == port + m.frm;
    SameBytes(u.mhdr, Reverse(m.devAddr), u.fctrl, LittleEndian(m.fcnt, 2), m.fopts, port, m.frm, phy.mic);
  }

  lemma SameBytes(mhdr: byte, addr: Bytes, fctrl: byte, fcnt: Bytes, fopts: Bytes, port: Bytes, frm: Bytes, mic: Bytes)
    ensures [mhdr] + addr + [fctrl] + fcnt + fopts + port + frm + mic ==
      [mhdr] + (addr + [fctrl] + fcnt + fopts + (port + frm)) + mic
  {
  }

  lemma SameJoinBytes(mhdr: byte, joinEui: Bytes, devEui: Bytes, nonce: Bytes, mic: Bytes)
    ensures [mhdr] + joinEui + devEui + nonce + mic == [mhdr] + (joinEui + devEui + nonce) + mic
  {
  }

  lemma RebuildJoinFrame(phy: Phy, dr: byte, freq: nat, info: UpInfo)
    requires phy.payload.JoinReq? && Fits(phy)
    ensures RebuildJoin(JreqOf(phy, dr, freq, info)) == Some(EncodePhy(phy))
  {
    var JoinReq(joinEui, devEui, devNonce) := phy.payload;
    Hex.RoundTrip(joinEui);
    Hex.RoundTrip(devEui);
    SignedRoundTrip(phy.mic);
    SameJoinBytes(MhdrByte(phy.mtype, phy.major), Reverse(joinEui), Reverse(devEui), LittleEndian(devNonce, 2),
        phy.mic);
  }

  /** The uplinks the layout admits: long enough, FOpts inside the frame, no MAC commands in both places. */
  predicate WellFormedUplink(raw: Bytes) {
    && |raw| >= 5
    && var mtype, n := raw[0] / 32, |raw| - 5;
       || (mtype == 0 && n == 18)
       || (mtype in {2, 4} && n >= 7
           && n >= 7 + raw[5] % 16
           && !(n > 8 + raw[5] % 16 && raw[5] % 16 > 0 && raw[8 + raw[5] % 16] == 0))
  }

  /** A data MACPayload decodes exactly when its FHDR fits and it has no MAC commands in both places. */
  lemma DataDecodesIff(body: Bytes)
    ensures DecodeMac(body).Ok? <==>
      && |body| >= 7 && |body| >= 7 + body[4] % 16
      && !(|body| > 8 + body[4] % 16 && body[4] % 16 > 0 && body[7 + body[4] % 16] == 0)
  {
    if |body| >= 7 && |body| > 7 + body[4] % 16 {
      assert |body[8 + body[4] % 16..]| == |body| - 8 - body[4] % 16;
    }
  }

  lemma ParsesIffDecodes(raw: Bytes, freq: nat, dr: byte, info: UpInfo)
    requires |raw| >= 5
    ensures ParseRaw(raw, freq, dr, info).Ok? <==>
      raw[0] / 32 in {0, 2, 4} && DecodePayload(MTypeOf(raw[0] / 32), raw[1..|raw| - 4]).Ok?
  {
  }

  /** The conditions on a data uplink, read off the frame and off its MACPayload. */
  lemma SameConditions(raw: Bytes, body: Bytes)
    requires |raw| >= 5 && body == raw[1..|raw| - 4]
    ensures WellFormedUplink(raw) <==>
      || (raw[0] / 32 == 0 && |body| == 18)
      || (&& raw[0] / 32 in {2, 4} && |body| >= 7 && |body| >= 7 + body[4] % 16
          && !(|body| > 8 + body[4] % 16 && body[4] % 16 > 0 && body[7 + body[4] % 16] == 0))
  {
    assert |body| == |raw| - 5 && forall i :: 0 <= i < |body| ==> body[i] == raw[i + 1];
  }

  /** A frame is forwarded exactly when it is a well-formed join-request or data uplink. */
  lemma ForwardedIffWellFormed(raw: Bytes, freq: nat, dr: byte, info: UpInfo)
    ensures ParseRaw(raw, freq, dr, info).Ok? <==> WellFormedUplink(raw)
  {
    if |raw| >= 5 {
      var body := raw[1..|raw| - 4];
      ParsesIffDecodes(raw, freq, dr, info);
      DataDecodesIff(body);
      SameConditions(raw, body);
    }
  }

  /** The forwarded fields determine the frame, MIC included, except for the three reserved MHDR bits:
      the frame is rebuilt byte for byte exactly when those are zero. */
  lemma BridgeLossless(raw: Bytes, freq: nat, dr: byte, info: UpInfo)
    requires ParseRaw(raw, freq, dr, info).Ok?
    ensures var r := Rebuild(ParseRaw(raw, freq, dr, info).value);
      r.Some? && |r.value| == |raw| && r.value[1..] == raw[1..] && (r.value == raw <==> raw[0] / 4 % 8 == 0)
  {
    EncodeDecodePhy(raw);
    var phy := DecodePhy(raw).value;
    if phy.payload.Data? {
      RebuildDataFrame(phy, dr, freq, info);
    } else {
      RebuildJoinFrame(phy, dr, freq, info);
    }
    assert |EncodePhy(phy)| == 1 + |EncodePhy(phy)[1..]|;
  }

  /** Two different frames with clear reserved bits are never forwarded as the same message. */
  lemma BridgeInjective(a: Bytes, b: Bytes, freq: nat, dr: byte, info: UpInfo)
    requires ParseRaw(a, freq, dr, info).Ok? && a[0] / 4 % 8 == 0
    requires ParseRaw(b, freq, dr, info).Ok? && b[0] / 4 % 8 == 0
    requires ParseRaw(a, freq, dr, info) == ParseRaw(b, freq, dr, info)
    ensures a == b
  {
    BridgeLossless(a, freq, dr, info);
    BridgeLossless(b, freq, dr, info);
  }

  // What the gateway makes of the frames the tag builds

  /** Whatever frame it is read from, a forwarded DevNonce fits 16 bits. */
  lemma ParsedNonceFits(phyHex: string, freq: nat, dr: byte, info: UpInfo)
    ensures var r := ParseUplink(phyHex, freq, dr, info); r.Ok? && r.value.Join? ==> r.value.jreq.devNonce < TWO_TO_16
  {
    if Hex.Decode(phyHex).Some? && DecodePhy(Hex.Decode(phyHex).value).Ok? {
      EncodeDecodePhy(Hex.Decode(phyHex).value);
    }
  }

  /** A tag's join-request reaches the network server with the tag's own identity and DevNonce. */
  lemma ForwardsJoinRequest(p: Primitives, prov: JoinFrames.Provisioning, devNonce: nat, freq: nat, dr: byte,
      info: UpInfo)
    requires devNonce < TWO_TO_16
    ensures var r := ParseUplink(Hex.Encode(JoinFrames.JoinRequestFrame(p, prov, devNonce)), freq, dr, info);
      && r.Ok? && r.value.Join?
      && r.value.devEui == Hex.Encode(prov.devEui)
      && r.value.jreq.devEui == Hex.Encode(prov.devEui)
      && r.value.jreq.joinEui == Hex.Encode(prov.joinEui)
      && r.value.jreq.devNonce == devNonce
  {
    var body := JoinReq(prov.joinEui, prov.devEui, devNonce);
    var phy := Phy(JoinRequest, 0, body, p.cmac(prov.appKey, Signed(JoinRequest, 0, body)));
    DecodeEncodePhy(phy);
    Hex.RoundTrip(EncodePhy(phy));
  }

  /** A tag's data uplink is forwarded still encrypted; whoever holds the key and the full counter can read the
      payload. */
  lemma ForwardsUplink(p: Primitives, u: DataFrames.UplinkParams, freq: nat, dr: byte, info: UpInfo)
    requires u.fcnt < TWO_TO_32
    ensures var r := ParseUplink(Hex.Encode(DataFrames.UplinkFrame(p, u)), freq, dr, info);
      && r.Ok? && r.value.DataUp?
      && r.value.updf.fcnt == u.fcnt % TWO_TO_16
      && r.value.updf.fport == u.fport
      && Hex.Decode(r.value.updf.frmPayload).Some?
      && DataFrames.Crypt(p, u.FrmKey(), DataFrames.UP, u.devAddr, u.fcnt,
                          Hex.Decode(r.value.updf.frmPayload).value) == u.data
  {
    var m := DataFrames.UplinkMac(p, u);
    var phy := DataFrames.Sealed(p, u.nwkSKey, DataFrames.UP, u.Type(), m);
    SplitPhy(phy);
    DecodeEncodeMac(m);
    Hex.RoundTrip(EncodePhy(phy));
    Hex.RoundTrip(m.frm);
    DataFrames.CryptTwice(p, u.FrmKey(), DataFrames.UP, u.devAddr, u.fcnt, u.data);
  }

  lemma RebuiltExactly(raw: Bytes, freq: nat, dr: byte, info: UpInfo)
    requires ParseUplink(Hex.Encode(raw), freq, dr, info).Ok? && raw != [] && raw[0] / 4 % 8 == 0
    ensures Rebuild(ParseUplink(Hex.Encode(raw), freq, dr, info).value) == Some(raw)
  {
    Hex.RoundTrip(raw);
    BridgeLossless(raw, freq, dr, info);
  }

  lemma UplinkParses(p: Primitives, u: DataFrames.UplinkParams, freq: nat, dr: byte, info: UpInfo)
    requires u.fcnt < TWO_TO_32
    ensures var frame := DataFrames.UplinkFrame(p, u);
      frame != [] && frame[0] / 4 % 8 == 0 && ParseUplink(Hex.Encode(frame), freq, dr, info).Ok?
  {
    SplitPhy(DataFrames.Sealed(p, u.nwkSKey, DataFrames.UP, u.Type(), DataFrames.UplinkMac(p, u)));
    ForwardsUplink(p, u, freq, dr, info);
  }

  /** And the frame the tag built can be rebuilt from what is forwarded, so its MIC can still be checked. */
  lemma UplinkIsRebuilt(p: Primitives, u: DataFrames.UplinkParams, frame: Bytes, freq: nat, dr: byte, info: UpInfo)
    requires u.fcnt < TWO_TO_32 && frame == DataFrames.UplinkFrame(p, u)
    ensures exists m :: ParseUplink(Hex.Encode(frame), freq, dr, info) == Ok(m) && Rebuild(m) == Some(frame)
  {
    UplinkParses(p, u, freq, dr, info);
    RebuiltExactly(frame, freq, dr, info);
  }
}
