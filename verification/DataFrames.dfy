/** internal/tag/data.go and buildDataDownlink of internal/mocklns/mocklns.go: data frames in both directions
    (sections 4.3.3 and 4.4 of LoRaWAN 1.0.3). */
module DataFrames {
  import opened ByteStrings
  import opened Crypto
  import opened Wire
  import opened Wrappers

  const UP: byte := 0
  const DOWN: byte := 1

  /** The i-th block A of section 4.3.3, from i = 0. */
  function EncryptionBlock(dir: byte, devAddr: DevAddr, fcnt: nat, i: nat): Block {
    [1, 0, 0, 0, 0, dir] + Reverse(devAddr) + LittleEndian(fcnt, 4) + [0, (i + 1) % 256]
  }

  function KeystreamByte(p: Primitives, key: Key, dir: byte, devAddr: DevAddr, fcnt: nat, j: nat): byte {
    p.aes(key, EncryptionBlock(dir, devAddr, fcnt, j / 16))[j % 16]
  }

  /** FRMPayload encryption and decryption: exclusive or with the keystream. */
  function Crypt(p: Primitives, key: Key, dir: byte, devAddr: DevAddr, fcnt: nat, data: Bytes): (r: Bytes)
    ensures |r| == |data|
  {
    seq<byte>(|data|, j requires 0 <= j < |data| => Xor(data[j], KeystreamByte(p, key, dir, devAddr, fcnt, j)))
  }

  lemma CryptTwice(p: Primitives, key: Key, dir: byte, devAddr: DevAddr, fcnt: nat, data: Bytes)
    ensures Crypt(p, key, dir, devAddr, fcnt, Crypt(p, key, dir, devAddr, fcnt, data)) == data
  {
    var once := Crypt(p, key, dir, devAddr, fcnt, data);
    var twice := Crypt(p, key, dir, devAddr, fcnt, once);
    forall j | 0 <= j < |data| ensures twice[j] == data[j] {
      XorTwice(data[j], KeystreamByte(p, key, dir, devAddr, fcnt, j));
    }
  }

  /** Blocks of frames below 4080 bytes differ unless direction, address, counter and index all agree. */
  lemma EncryptionBlockInjective(dir: byte, a: DevAddr, m: nat, i: nat, dir': byte, a': DevAddr, m': nat, i': nat)
    requires m < TWO_TO_32 && m' < TWO_TO_32 && i < 255 && i' < 255
    ensures EncryptionBlock(dir, a, m, i) == EncryptionBlock(dir', a', m', i')
       <==> dir == dir' && a == a' && m == m' && i == i'
  {
    var b, b' := EncryptionBlock(dir, a, m, i), EncryptionBlock(dir', a', m', i');
    Widths();
    assert b[5] == dir && b[6..10] == Reverse(a) && b[10..14] == LittleEndian(m, 4) && b[15] == i + 1;
    assert b'[5] == dir' && b'[6..10] == Reverse(a') && b'[10..14] == LittleEndian(m', 4) && b'[15] == i' + 1;
    LittleEndianRoundTrip(m, 4);
    LittleEndianRoundTrip(m', 4);
    ReverseTwice(a);
    ReverseTwice(a');
  }

  /** The MIC of section 4.4: block B0 in front of the signed part of the frame. */
  function DataMic(p: Primitives, nwkSKey: Key, dir: byte, devAddr: DevAddr, fcnt: nat, msg: Bytes): Mic {
    p.cmac(nwkSKey, [0x49, 0, 0, 0, 0, dir] + Reverse(devAddr) + LittleEndian(fcnt, 4) + [0, |msg| % 256] + msg)
  }

  function Sealed(p: Primitives, nwkSKey: Key, dir: byte, mtype: MType, m: MacFrame): Phy {
    Phy(mtype, 0, Data(m), DataMic(p, nwkSKey, dir, m.devAddr, m.fcnt, Signed(mtype, 0, Data(m))))
  }

  // Uplinks

  datatype UplinkParams = UplinkParams(
    devAddr: DevAddr, nwkSKey: Key, appSKey: Key, fcnt: nat, fport: byte, data: Bytes,
    confirmed: bool, adr: bool, ack: bool)
  {
    /** FPort 0 carries MAC commands and is encrypted with the network key. */
    function FrmKey(): Key {
      if fport == 0 then nwkSKey else appSKey
    }

    function Type(): MType {
      if confirmed then ConfirmedDataUp else UnconfirmedDataUp
    }
  }

  function UplinkMac(p: Primitives, u: UplinkParams): MacFrame {
    MacFrame(u.devAddr, FCtrl(u.adr, false, u.ack, false), u.fcnt, [], Some(u.fport),
             Crypt(p, u.FrmKey(), UP, u.devAddr, u.fcnt, u.data))
  }

  function UplinkFrame(p: Primitives, u: UplinkParams): Bytes {
    EncodePhy(Sealed(p, u.nwkSKey, UP, u.Type(), UplinkMac(p, u)))
  }

  method BuildUplink(p: Primitives, u: UplinkParams) returns (frame: Bytes)
    ensures frame == UplinkFrame(p, u)
  {
    var mtype := UnconfirmedDataUp;
    if u.confirmed {
      mtype := ConfirmedDataUp;
    }
    var mac := MacFrame(u.devAddr, FCtrl(u.adr, false, u.ack, false), u.fcnt, [], Some(u.fport), u.data);
    var frmKey := u.appSKey;
    if u.fport == 0 {
      frmKey := u.nwkSKey;
    }
    mac := mac.(frm := Crypt(p, frmKey, UP, mac.devAddr, mac.fcnt, mac.frm));
    var phy := Phy(mtype, 0, Data(mac), [0, 0, 0, 0]);
    phy := phy.(mic := DataMic(p, u.nwkSKey, UP, mac.devAddr, mac.fcnt, Signed(phy.mtype, phy.major, phy.payload)));
    frame := EncodePhy(phy);
  }

  // Downlinks

  /** The emulated network server's data downlink; it encrypts with the application key whatever the FPort. */
  function DownlinkMac(p: Primitives, appSKey: Key, devAddr: DevAddr, fcnt: nat, fport: byte, data: Bytes): MacFrame {
    MacFrame(devAddr, NO_FLAGS, fcnt, [], Some(fport), Crypt(p, appSKey, DOWN, devAddr, fcnt, data))
  }

  function DownlinkFrame(p: Primitives, nwkSKey: Key, appSKey: Key, devAddr: DevAddr, fcnt: nat, fport: byte,
      data: Bytes): Bytes {
    EncodePhy(Sealed(p, nwkSKey, DOWN, UnconfirmedDataDown, DownlinkMac(p, appSKey, devAddr, fcnt, fport, data)))
  }

  method BuildDataDownlink(p: Primitives, nwkSKey: Key, appSKey: Key, devAddr: DevAddr, fcnt: nat, fport: byte,
      data: Bytes)
    returns (frame: Bytes)
    ensures frame == DownlinkFrame(p, nwkSKey, appSKey, devAddr, fcnt, fport, data)
  {
    var mac := MacFrame(devAddr, NO_FLAGS, fcnt, [], Some(fport), data);
    mac := mac.(frm := Crypt(p, appSKey, DOWN, mac.devAddr, mac.fcnt, mac.frm));
    var phy := Phy(UnconfirmedDataDown, 0, Data(mac), [0, 0, 0, 0]);
    phy := phy.(mic := DataMic(p, nwkSKey, DOWN, mac.devAddr, mac.fcnt, Signed(phy.mtype, phy.major, phy.payload)));
    frame := EncodePhy(phy);
  }

  datatype MacCommandRaw = MacCommandRaw(cid: byte, payload: Bytes)

  datatype Downlink = Downlink(
    fport: byte, fcnt: nat, confirmed: bool, ack: bool, fpending: bool, payload: Bytes, macCommands: seq<MacCommandRaw>)

  /** The non-empty commands, each split into identifier and payload; other payloads are skipped, and a command
      that does not marshal is an error. */
  function Surfaced(payloads: seq<DecodedPayload>): Option<seq<MacCommandRaw>> {
    if payloads == [] then Some([])
    else
      match (Surfaced(payloads[..|payloads| - 1]), payloads[|payloads| - 1])
      case (Some(earlier), OtherPayload) => Some(earlier)
      case (Some(earlier), Command(Some(b))) => Some(earlier + if b == [] then [] else [MacCommandRaw(b[0], b[1..])])
      case _ => None
  }

  lemma {:induction false} SurfacedFails(payloads: seq<DecodedPayload>, i: nat)
    requires i < |payloads| && payloads[i] == Command(None)
    ensures Surfaced(payloads) == None
  {
    if i < |payloads| - 1 {
      SurfacedFails(payloads[..|payloads| - 1], i);
    }
  }

  method CollectMacCommands(payloads: seq<DecodedPayload>) returns (out: Option<seq<MacCommandRaw>>)
    ensures out == Surfaced(payloads)
  {
    var cmds := [];
    for i := 0 to |payloads|
      invariant Surfaced(payloads[..i]) == Some(cmds)
    {
      assert payloads[..i + 1][..i] == payloads[..i];
      match payloads[i]
      case OtherPayload =>
      case Command(None) =>
        SurfacedFails(payloads, i);
        return None;
      case Command(Some(b)) =>
        assert cmds + [] == cmds;
        if b != [] {
          cmds := cmds + [MacCommandRaw(b[0], b[1..])];
        }
    }
    assert payloads[..|payloads|] == payloads;
    out := Some(cmds);
  }

  function Commands(p: Primitives, encoded: Bytes): Option<seq<MacCommandRaw>> {
    if encoded == [] then Some([])
    else
      match p.macCommands(encoded)
      case None => None
      case Some(payloads) => Surfaced(payloads)
  }

  /** MAC commands from FOpts, then from an FPort 0 payload. */
  function DownlinkCommands(p: Primitives, nwkSKey: Key, m: MacFrame): Option<seq<MacCommandRaw>> {
    var fromOpts := Commands(p, m.fopts);
    var fromPayload :=
      if m.fport != Some(0) then Some([]) else Commands(p, Crypt(p, nwkSKey, DOWN, m.devAddr, m.fcnt, m.frm));
    if fromOpts.None? || fromPayload.None? then None else Some(fromOpts.value + fromPayload.value)
  }

  /** The content of a decoded frame whose MIC is right. */
  function Content(p: Primitives, nwkSKey: Key, appSKey: Key, mtype: MType, m: MacFrame): Result<Downlink> {
    match DownlinkCommands(p, nwkSKey, m)
    case None => Err("decoding MAC commands")
    case Some(commands) =>
      var fport := match m.fport case None => 0 case Some(n) => n;
      var payload := if fport == 0 then [] else Crypt(p, appSKey, DOWN, m.devAddr, m.fcnt, m.frm);
      Ok(Downlink(fport, m.fcnt, mtype == ConfirmedDataDown, m.fctrl.ack, m.fctrl.pending, payload, commands))
  }

  function Opened(p: Primitives, nwkSKey: Key, appSKey: Key, phy: Phy): Result<Downlink>
    requires phy.major < 4
  {
    if phy.mtype !in {UnconfirmedDataDown, ConfirmedDataDown} || !phy.payload.Data? then Err("not a data downlink")
    else
      var m := phy.payload.mac;
      if DataMic(p, nwkSKey, DOWN, m.devAddr, m.fcnt, Signed(phy.mtype, phy.major, phy.payload)) != phy.mic then
        Err("downlink MIC is invalid")
      else Content(p, nwkSKey, appSKey, phy.mtype, m)
  }

  /** What the device makes of a downlink. The counter is taken to be the 16 bits on the wire, and the address is
      not compared. */
  function DownlinkResult(p: Primitives, nwkSKey: Key, appSKey: Key, data: Bytes): Result<Downlink> {
    match DecodePhy(data)
    case Err(e) => Err(e)
    case Ok(phy) => Opened(p, nwkSKey, appSKey, phy)
  }

  method ReadCommands(p: Primitives, encoded: Bytes) returns (r: Option<seq<MacCommandRaw>>)
    ensures r == Commands(p, encoded)
  {
    if encoded == [] {
      return Some([]);
    }
    var payloads := p.macCommands(encoded);
    if payloads.None? {
      return None;
    }
    r := CollectMacCommands(payloads.value);
  }

  method ReadContent(p: Primitives, nwkSKey: Key, appSKey: Key, mtype: MType, m: MacFrame) returns (r: Result<Downlink>)
    ensures r == Content(p, nwkSKey, appSKey, mtype, m)
  {
    var mac := m;
    var out := Downlink(0, mac.fcnt, mtype == ConfirmedDataDown, mac.fctrl.ack, mac.fctrl.pending, [], []);
    var fromOpts := ReadCommands(p, mac.fopts);
    if fromOpts.None? {
      return Err("decoding MAC commands");
    }
    out := out.(macCommands := fromOpts.value);
    if mac.fport.Some? {
      out := out.(fport := mac.fport.value);
      if mac.fport.value == 0 {
        mac := mac.(frm := Crypt(p, nwkSKey, DOWN, mac.devAddr, mac.fcnt, mac.frm));
        var fromPayload := ReadCommands(p, mac.frm);
        if fromPayload.None? {
          return Err("decoding MAC commands");
        }
        out := out.(macCommands := out.macCommands + fromPayload.value);
      } else {
        mac := mac.(frm := Crypt(p, appSKey, DOWN, mac.devAddr, mac.fcnt, mac.frm));
        out := out.(payload := mac.frm);
      }
    }
    assert fromOpts.value + [] == fromOpts.value;
    r := Ok(out);
  }

  method ParseDownlink(p: Primitives, nwkSKey: Key, appSKey: Key, data: Bytes) returns (r: Result<Downlink>)
    ensures r == DownlinkResult(p, nwkSKey, appSKey, data)
  {
    var decoded := DecodePhy(data);
    if decoded.Err? {
      return Err(decoded.msg);
    }
    var phy := decoded.value;
    if phy.mtype !in {UnconfirmedDataDown, ConfirmedDataDown} || !phy.payload.Data? {
      return Err("not a data downlink");
    }
    var mac := phy.payload.mac;
    if DataMic(p, nwkSKey, DOWN, mac.devAddr, mac.fcnt, Signed(phy.mtype, phy.major, phy.payload)) != phy.mic {
      return Err("downlink MIC is invalid");
    }
    r := ReadContent(p, nwkSKey, appSKey, phy.mtype, mac);
  }

  /** The downlink as it comes off the wire: only the low 16 counter bits remain, and the MIC is that of the full
      counter. */
  function WirePhy(p: Primitives, nwkSKey: Key, appSKey: Key, devAddr: DevAddr, fcnt: nat, fport: byte,
      data: Bytes): Phy {
    var m := DownlinkMac(p, appSKey, devAddr, fcnt, fport, data);
    Sealed(p, nwkSKey, DOWN, UnconfirmedDataDown, m).(payload := Data(m.(fcnt := fcnt % TWO_TO_16)))
  }

  lemma DownlinkOnTheWire(p: Primitives, nwkSKey: Key, appSKey: Key, devAddr: DevAddr, fcnt: nat, fport: byte,
      data: Bytes)
    ensures DecodePhy(DownlinkFrame(p, nwkSKey, appSKey, devAddr, fcnt, fport, data))
         == Ok(WirePhy(p, nwkSKey, appSKey, devAddr, fcnt, fport, data))
  {
    var m := DownlinkMac(p, appSKey, devAddr, fcnt, fport, data);
    SplitPhy(Sealed(p, nwkSKey, DOWN, UnconfirmedDataDown, m));
    DecodeEncodeMac(m);
  }

  /** Decrypting the network server's payload gives the data back, except on FPort 0, where it is read as MAC
      commands. */
  lemma ContentOfDownlink(p: Primitives, nwkSKey: Key, appSKey: Key, devAddr: DevAddr, fcnt: nat, fport: byte,
      data: Bytes)
    ensures Content(p, nwkSKey, appSKey, UnconfirmedDataDown, DownlinkMac(p, appSKey, devAddr, fcnt, fport, data))
              == Ok(Downlink(fport, fcnt, false, false, false, data, []))
       <==> fport > 0 || data == []
  {
    var m, none: seq<MacCommandRaw> := DownlinkMac(p, appSKey, devAddr, fcnt, fport, data), [];
    CryptTwice(p, appSKey, DOWN, devAddr, fcnt, data);
    assert none + none == none;
    if fport > 0 || data == [] {
      assert m.fport != Some(0) || Crypt(p, nwkSKey, DOWN, devAddr, fcnt, m.frm) == [];
    }
  }

  lemma OpenSealed(p: Primitives, nwkSKey: Key, appSKey: Key, mtype: MType, m: MacFrame)
    requires mtype in {UnconfirmedDataDown, ConfirmedDataDown}
    ensures Opened(p, nwkSKey, appSKey, Sealed(p, nwkSKey, DOWN, mtype, m)) == Content(p, nwkSKey, appSKey, mtype, m)
  {
  }

  lemma OpenedCounter(p: Primitives, nwkSKey: Key, appSKey: Key, phy: Phy)
    requires phy.major < 4
    ensures var r := Opened(p, nwkSKey, appSKey, phy);
      r.Ok? ==> phy.payload.Data? && r.value.fcnt == phy.payload.mac.fcnt
  {
  }

  lemma ShortCounter(
    p: Primitives, nwkSKey: Key, appSKey: Key, devAddr: DevAddr, fcnt: nat, fport: byte, data: Bytes, m: MacFrame)
    requires fcnt < TWO_TO_16 && m == DownlinkMac(p, appSKey, devAddr, fcnt, fport, data)
    ensures WirePhy(p, nwkSKey, appSKey, devAddr, fcnt, fport, data) == Sealed(p, nwkSKey, DOWN, UnconfirmedDataDown, m)
  {
    assert m.(fcnt := fcnt % TWO_TO_16) == m;
  }

  /** A counter over 16 bits does not come back, whatever else happens. */
  lemma LongCounter(p: Primitives, nwkSKey: Key, appSKey: Key, phy: Phy, fcnt: nat, r: Downlink)
    requires phy.major < 4 && phy.payload.Data? && phy.payload.mac.fcnt == fcnt % TWO_TO_16
    requires fcnt >= TWO_TO_16 && r.fcnt == fcnt
    ensures Opened(p, nwkSKey, appSKey, phy) != Ok(r)
  {
    OpenedCounter(p, nwkSKey, appSKey, phy);
  }

  lemma WireRoundTrip(p: Primitives, nwkSKey: Key, appSKey: Key, devAddr: DevAddr, fcnt: nat, fport: byte, data: Bytes)
    ensures Opened(p, nwkSKey, appSKey, WirePhy(p, nwkSKey, appSKey, devAddr, fcnt, fport, data))
              == Ok(Downlink(fport, fcnt, false, false, false, data, []))
       <==> fcnt < TWO_TO_16 && (fport > 0 || data == [])
  {
    if fcnt < TWO_TO_16 {
      var m := DownlinkMac(p, appSKey, devAddr, fcnt, fport, data);
      ShortCounter(p, nwkSKey, appSKey, devAddr, fcnt, fport, data, m);
      OpenSealed(p, nwkSKey, appSKey, UnconfirmedDataDown, m);
      ContentOfDownlink(p, nwkSKey, appSKey, devAddr, fcnt, fport, data);
    } else {
      LongCounter(p, nwkSKey, appSKey, WirePhy(p, nwkSKey, appSKey, devAddr, fcnt, fport, data), fcnt,
                  Downlink(fport, fcnt, false, false, false, data, []));
    }
  }

  /** The device reads a pushed downlink back, counter included, exactly when the counter fits 16 bits
      and a non-empty payload is not addressed to FPort 0. */
  lemma DownlinkRoundTrip(p: Primitives, nwkSKey: Key, appSKey: Key, devAddr: DevAddr, fcnt: nat, fport: byte,
      data: Bytes)
    ensures DownlinkResult(p, nwkSKey, appSKey, DownlinkFrame(p, nwkSKey, appSKey, devAddr, fcnt, fport, data))
              == Ok(Downlink(fport, fcnt, false, false, false, data, []))
       <==> fcnt < TWO_TO_16 && (fport > 0 || data == [])
  {
    DownlinkOnTheWire(p, nwkSKey, appSKey, devAddr, fcnt, fport, data);
    WireRoundTrip(p, nwkSKey, appSKey, devAddr, fcnt, fport, data);
  }

  /** Whatever the frame, the counter the device reads fits 16 bits. */
  lemma CounterBound(p: Primitives, nwkSKey: Key, appSKey: Key, data: Bytes)
    ensures var r := DownlinkResult(p, nwkSKey, appSKey, data); r.Ok? ==> r.value.fcnt < TWO_TO_16
  {
    if DecodePhy(data).Ok? {
      EncodeDecodePhy(data);
      OpenedCounter(p, nwkSKey, appSKey, DecodePhy(data).value);
    }
  }
}
