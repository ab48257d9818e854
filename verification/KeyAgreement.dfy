/** Both ends of a completed join hold the same session keys. The join-accept's MIC does not cover the DevNonce,
    so this is a property of the links: it rests on at most one join per device being under way. */
module KeyAgreement {
  import opened ByteStrings
  import opened Crypto
  import opened MockLns
  import opened Network
  import opened Queues
  import opened Sessions
  import opened Wrappers
  import Bridge
  import DataFrames
  import Hex
  import JoinFrames
  import Keys
  import Wire

  // Join messages on the links

  predicate HasType(b: Bytes, mtype: Wire.MType) {
    b != [] && Wire.MTypeOf(b[0] / 32) == mtype
  }

  predicate IsData(b: Bytes) {
    b != [] && Wire.MTypeOf(b[0] / 32).IsData()
  }

  predicate IsJoinUp(m: UpMsg) {
    m.Up? && Hex.Decode(m.phy).Some? && HasType(Hex.Decode(m.phy).value, Wire.JoinRequest)
  }

  predicate IsAccept(h: string) {
    Hex.Decode(h).Some? && HasType(Hex.Decode(h).value, Wire.JoinAccept)
  }

  function JreqFor(d: string): WsUp -> bool {
    (m: WsUp) => m.JreqMsg? && m.jr.devEui == d
  }

  function AcceptFor(d: string): Dnmsg -> bool {
    (m: Dnmsg) => m.devEui == d && IsAccept(m.pdu)
  }

  function InHand(t: TagState): nat {
    (if t.joinCh.Some? && HasType(t.joinCh.value, Wire.JoinAccept) then 1 else 0)
    + if t.phase.Holding? && HasType(t.phase.pdu, Wire.JoinAccept) then 1 else 0
  }

  /** Join-requests and join-accepts of device `d` that are under way anywhere. */
  function Outstanding(s: State, d: string): nat
    requires d in s.tags
  {
    var t := s.tags[d];
    Count(t.up, IsJoinUp) + Count(s.wsUp, JreqFor(d))
    + Count(s.wsDown, AcceptFor(d)) + Count(t.down, IsAccept) + InHand(t)
  }

  /** A device starts a join only when nothing of its earlier joins is still under way. */
  predicate OneJoinAtATime(s: State, step: Step) {
    step.Here? && step.act.BeginJoin? && step.d in s.tags ==> Outstanding(s, step.d) == 0
  }

  predicate Disciplined(w: World, joinNonce: nat, steps: seq<Step>) {
    steps == []
    || (&& Disciplined(w, joinNonce, steps[..|steps| - 1])
        && OneJoinAtATime(Network.Run(w, joinNonce, steps[..|steps| - 1]), steps[|steps| - 1]))
  }

  /** The stored session came from the latest join-request sent: no join has begun since. */
  predicate Completed(t: TagState) {
    t.sess.joined && t.sessNonce == t.sentNonce
  }

  /** The tag's stored keys are those the server derives from what it remembers. */
  predicate KeysAgree(w: World, s: State, d: string)
    requires d in s.tags
  {
    && d in s.lns.sessions
    && var info := s.lns.sessions[d];
       var keys := Keys.KeysOf(w.p, w.cfg.appKey, w.cfg.netId, info.joinNonce, info.devNonce);
    && s.tags[d].sess.nwkSKey == Hex.Encode(keys.nwk)
    && s.tags[d].sess.appSKey == Hex.Encode(keys.app)
    && s.tags[d].sess.devAddr == Hex.Encode(w.cfg.devAddr)
  }

  // The inductive invariant

  predicate GoodUp(w: World, d: string, t: TagState, m: UpMsg)
    requires d in w.provs
  {
    IsJoinUp(m) ==> m.phy == Hex.Encode(JoinFrames.JoinRequestFrame(w.p, w.provs[d], t.sentNonce))
  }

  /** A downlink is a data frame, or the accept that answers the latest request. */
  predicate GoodPdu(w: World, lns: Lns, d: string, sentNonce: nat, b: Bytes) {
    || IsData(b)
    || (&& HasType(b, Wire.JoinAccept)
        && d in lns.sessions
        && lns.sessions[d].devNonce == sentNonce
        && JoinFrames.FitsAccept(AcceptOf(w.cfg, lns.sessions[d].joinNonce))
        && b == JoinFrames.JoinAcceptFrame(w.p, w.cfg.appKey, AcceptOf(w.cfg, lns.sessions[d].joinNonce)))
  }

  predicate GoodHex(w: World, lns: Lns, d: string, sentNonce: nat, h: string) {
    Hex.Decode(h).Some? && GoodPdu(w, lns, d, sentNonce, Hex.Decode(h).value)
  }

  /** What the tag itself holds. */
  predicate GoodTag(w: World, lns: Lns, d: string, t: TagState)
    requires d in w.provs
  {
    && t.sessNonce <= t.sentNonce <= t.sess.devNonce && t.sentNonce < TWO_TO_16
    && (t.phase.Waiting? || t.phase.Holding? ==> t.phase.nonce == t.sentNonce && t.sessNonce < t.sentNonce)
    && (forall m <- t.up :: GoodUp(w, d, t, m))
    && (forall h <- t.down :: GoodHex(w, lns, d, t.sentNonce, h))
    && (t.joinCh.Some? ==> GoodPdu(w, lns, d, t.sentNonce, t.joinCh.value))
    && (t.phase.Holding? ==> GoodPdu(w, lns, d, t.sentNonce, t.phase.pdu))
  }

  /** What the shared links hold for the device. */
  predicate GoodLinks(w: World, s: State, d: string)
    requires d in s.tags
  {
    && (forall m <- s.wsUp :: JreqFor(d)(m) ==> m.jr.devNonce == s.tags[d].sentNonce)
    && (forall m <- s.wsDown :: m.devEui == d ==> GoodHex(w, s.lns, d, s.tags[d].sentNonce, m.pdu))
  }

  predicate GoodDevice(w: World, s: State, d: string)
    requires d in s.tags && d in w.provs
  {
    && GoodTag(w, s.lns, d, s.tags[d])
    && GoodLinks(w, s, d)
    && Outstanding(s, d) <= 1
    && (Completed(s.tags[d]) ==>
          Outstanding(s, d) == 0 && KeysAgree(w, s, d) && s.lns.sessions[d].devNonce == s.tags[d].sentNonce)
  }

  // Frames on the links

  lemma RequestFrame(w: World, d: string, nonce: nat, xtime: int)
    requires w.Valid() && d in w.provs && nonce < TWO_TO_16
    ensures var phy := Hex.Encode(JoinFrames.JoinRequestFrame(w.p, w.provs[d], nonce));
      && IsJoinUp(Up(phy))
      && |Forwarded(phy, xtime)| == 1 && Forwarded(phy, xtime)[0].JreqMsg?
      && Forwarded(phy, xtime)[0].jr.devEui == d && Forwarded(phy, xtime)[0].jr.devNonce == nonce
  {
    var body := Wire.JoinReq(w.provs[d].joinEui, w.provs[d].devEui, nonce);
    var phy := Wire.Phy(Wire.JoinRequest, 0, body, w.p.cmac(w.provs[d].appKey, Wire.Signed(Wire.JoinRequest, 0, body)));
    Wire.SplitPhy(phy);
    Hex.RoundTrip(Wire.EncodePhy(phy));
    Bridge.ForwardsJoinRequest(w.p, w.provs[d], nonce, 868100000, 0, Bridge.SynthUpInfo(0, xtime));
  }

  /** Only join-requests are forwarded as such. */
  lemma OnlyRequestsForwarded(phy: string, xtime: int)
    requires !IsJoinUp(Up(phy))
    ensures |Forwarded(phy, xtime)| <= 1
    ensures forall m <- Forwarded(phy, xtime) :: !m.JreqMsg?
  {
  }

  lemma UplinkFrameIsData(p: Primitives, u: DataFrames.UplinkParams)
    ensures !IsJoinUp(Up(Hex.Encode(DataFrames.UplinkFrame(p, u))))
  {
    var phy := DataFrames.Sealed(p, u.nwkSKey, DataFrames.UP, u.Type(), DataFrames.UplinkMac(p, u));
    Wire.SplitPhy(phy);
    Hex.RoundTrip(Wire.EncodePhy(phy));
  }

  lemma PushedFrameIsData(w: World, info: JoinInfo, d: string, fport: byte, data: Bytes, diid: nat)
    ensures var h := Push(w.p, w.cfg, info, d, fport, data, diid).pdu;
      Hex.Decode(h).Some? && IsData(Hex.Decode(h).value) && !IsAccept(h)
  {
    var keys := Keys.KeysOf(w.p, w.cfg.appKey, w.cfg.netId, info.joinNonce, info.devNonce);
    var m := DataFrames.DownlinkMac(w.p, keys.app, w.cfg.devAddr, info.fcntDown, fport, data);
    var phy := DataFrames.Sealed(w.p, keys.nwk, DataFrames.DOWN, Wire.UnconfirmedDataDown, m);
    Wire.SplitPhy(phy);
    Hex.RoundTrip(Wire.EncodePhy(phy));
  }

  lemma AcceptFrame(w: World, joinNonce: nat)
    requires JoinFrames.FitsAccept(AcceptOf(w.cfg, joinNonce))
    ensures var b := JoinFrames.JoinAcceptFrame(w.p, w.cfg.appKey, AcceptOf(w.cfg, joinNonce));
      HasType(b, Wire.JoinAccept) && Hex.Decode(Hex.Encode(b)) == Some(b)
  {
    var payload := JoinFrames.EncodeAccept(AcceptOf(w.cfg, joinNonce));
    var cipher := w.p.aesInverse(
      w.cfg.appKey, payload + JoinFrames.AcceptMic(w.p, w.cfg.appKey, Wire.JoinAccept, 0, payload));
    var phy := Wire.Phy(Wire.JoinAccept, 0, Wire.Opaque(cipher[..12]), cipher[12..]);
    Wire.SplitPhy(phy);
    Hex.RoundTrip(Wire.EncodePhy(phy));
  }

  // Every step keeps the invariant of every device

  /** When nothing is outstanding no queue holds a join message of the device. */
  lemma NothingUnderWay(s: State, d: string)
    requires d in s.tags
    ensures Outstanding(s, d) == 0 <==>
      && (forall m <- s.tags[d].up :: !IsJoinUp(m))
      && (forall m <- s.wsUp :: !JreqFor(d)(m))
      && (forall m <- s.wsDown :: !AcceptFor(d)(m))
      && (forall h <- s.tags[d].down :: !IsAccept(h))
      && InHand(s.tags[d]) == 0
  {
    CountZero(s.tags[d].up, IsJoinUp);
    CountZero(s.wsUp, JreqFor(d));
    CountZero(s.wsDown, AcceptFor(d));
    CountZero(s.tags[d].down, IsAccept);
  }

  function Replaced(s: State, d: string, t: TagState): State {
    s.(tags := s.tags[d := t])
  }

  lemma ActReplaces(w: World, s: State, d: string, act: Act)
    requires d in s.tags && d in w.provs
    ensures Next(w, s, Here(d, act)) == Replaced(s, d, Local(w.p, w.provs[d], s.tags[d], act))
  {
  }

  /** A change of the frame counters, or a larger DevNonce, touches nothing the invariant speaks of. */
  lemma CountersMove(w: World, s: State, d: string, t': TagState)
    requires d in s.tags && d in w.provs && GoodDevice(w, s, d)
    requires t' == s.tags[d].(sess := t'.sess) && t'.sess.devNonce >= s.tags[d].sess.devNonce
    requires t'.sess == s.tags[d].sess.(
      fcntUp := t'.sess.fcntUp, fcntDown := t'.sess.fcntDown, devNonce := t'.sess.devNonce)
    ensures GoodDevice(w, Replaced(s, d, t'), d)
  {
  }

  lemma NewRequest(w: World, s: State, d: string, nonce: nat, m: UpMsg, t': TagState)
    requires d in s.tags && d in w.provs && GoodDevice(w, s, d) && Outstanding(s, d) == 0
    requires s.tags[d].sess.devNonce < nonce < TWO_TO_16 && IsJoinUp(m)
    requires m == Up(Hex.Encode(JoinFrames.JoinRequestFrame(w.p, w.provs[d], nonce)))
    requires t' == s.tags[d].(sess := s.tags[d].sess.(devNonce := nonce), phase := Waiting(nonce), sentNonce := nonce,
                              up := s.tags[d].up + [m])
    ensures GoodDevice(w, Replaced(s, d, t'), d)
  {
    NothingUnderWay(s, d);
    CountAppend(s.tags[d].up, m, IsJoinUp);
  }

  lemma RequestIsJoinUp(w: World, d: string, nonce: nat)
    requires w.Valid() && d in w.provs && nonce < TWO_TO_16
    ensures IsJoinUp(Up(Hex.Encode(JoinFrames.JoinRequestFrame(w.p, w.provs[d], nonce))))
  {
    RequestFrame(w, d, nonce, 0);
  }

  lemma BeginIs(p: Primitives, prov: JoinFrames.Provisioning, t: TagState, nonce: nat, m: UpMsg)
    requires nonce == t.sess.devNonce + 1
    requires nonce < TWO_TO_16 ==> m == Up(Hex.Encode(JoinFrames.JoinRequestFrame(p, prov, nonce)))
    ensures Local(p, prov, t, BeginJoin) ==
      if !t.phase.Idle? then t
      else if nonce < TWO_TO_16 then
        t.(sess := t.sess.(devNonce := nonce), phase := Waiting(nonce), sentNonce := nonce, up := t.up + [m])
      else t.(sess := t.sess.(devNonce := nonce))
  {
  }

  lemma BeginJoinKeeps(w: World, s: State, d: string)
    requires w.Valid() && d in s.tags && d in w.provs && GoodDevice(w, s, d) && Outstanding(s, d) == 0
    ensures GoodDevice(w, Next(w, s, Here(d, BeginJoin)), d)
  {
    var t, nonce := s.tags[d], s.tags[d].sess.devNonce + 1;
    ActReplaces(w, s, d, BeginJoin);
    if nonce < TWO_TO_16 {
      var m := Up(Hex.Encode(JoinFrames.JoinRequestFrame(w.p, w.provs[d], nonce)));
      RequestIsJoinUp(w, d, nonce);
      BeginIs(w.p, w.provs[d], t, nonce, m);
      Begun(w, s, d, nonce, m, Local(w.p, w.provs[d], t, BeginJoin));
    } else {
      BeginIs(w.p, w.provs[d], t, nonce, Hello);
      CountersMove(w, s, d, Local(w.p, w.provs[d], t, BeginJoin));
    }
  }

  lemma Begun(w: World, s: State, d: string, nonce: nat, m: UpMsg, t': TagState)
    requires d in s.tags && d in w.provs && GoodDevice(w, s, d) && Outstanding(s, d) == 0
    requires s.tags[d].sess.devNonce < nonce < TWO_TO_16 && IsJoinUp(m)
    requires m == Up(Hex.Encode(JoinFrames.JoinRequestFrame(w.p, w.provs[d], nonce)))
    requires var t := s.tags[d];
      t' == if !t.phase.Idle? then t
            else t.(sess := t.sess.(devNonce := nonce), phase := Waiting(nonce), sentNonce := nonce, up := t.up + [m])
    ensures GoodDevice(w, Replaced(s, d, t'), d)
  {
    if s.tags[d].phase.Idle? {
      NewRequest(w, s, d, nonce, m, t');
    } else {
      CountersMove(w, s, d, t');
    }
  }

  /** A join that came to nothing. */
  lemma IdleAgain(w: World, s: State, d: string)
    requires d in s.tags && d in w.provs && GoodDevice(w, s, d)
    ensures GoodDevice(w, Replaced(s, d, s.tags[d].(phase := Idle)), d)
  {
  }

  /** The session `t'` holds is the one of join nonce `n` and the tag's own DevNonce. */
  predicate SessionOf(w: World, t: TagState, n: nat) {
    var keys := Keys.KeysOf(w.p, w.cfg.appKey, w.cfg.netId, n, t.sessNonce);
    && t.sess.joined && t.sess.devAddr == Hex.Encode(w.cfg.devAddr)
    && t.sess.nwkSKey == Hex.Encode(keys.nwk) && t.sess.appSKey == Hex.Encode(keys.app)
  }

  lemma SavedAccept(w: World, s: State, d: string, t': TagState)
    requires d in s.tags && d in w.provs && GoodDevice(w, s, d) && s.tags[d].phase.Holding?
    requires !IsData(s.tags[d].phase.pdu)
    requires t' == s.tags[d].(phase := Saved, sess := t'.sess, sessNonce := s.tags[d].phase.nonce)
    requires d in s.lns.sessions && SessionOf(w, t', s.lns.sessions[d].joinNonce)
    requires t'.sess.devNonce == s.tags[d].sess.devNonce
    ensures GoodDevice(w, Replaced(s, d, t'), d)
  {
  }

  lemma SavesSession(w: World, d: string, t: TagState, n: nat)
    requires w.Valid() && d in w.provs && t.phase.Holding? && JoinFrames.FitsAccept(AcceptOf(w.cfg, n))
    requires t.phase.pdu == JoinFrames.JoinAcceptFrame(w.p, w.cfg.appKey, AcceptOf(w.cfg, n))
    ensures var t' := FinishJoin(w.p, w.provs[d], t);
      && t' == t.(phase := Saved, sess := t'.sess, sessNonce := t.phase.nonce)
      && SessionOf(w, t', n) && t'.sess.devNonce == t.sess.devNonce
  {
    JoinFrames.JoinAcceptRoundTrip(w.p, w.provs[d], t.phase.nonce, AcceptOf(w.cfg, n));
  }

  lemma SaveIs(p: Primitives, prov: JoinFrames.Provisioning, t: TagState)
    ensures Local(p, prov, t, SaveAccept) == if t.phase.Holding? then FinishJoin(p, prov, t) else t
  {
  }

  lemma SaveAcceptKeeps(w: World, s: State, d: string)
    requires w.Valid() && d in s.tags && d in w.provs && GoodDevice(w, s, d)
    ensures GoodDevice(w, Next(w, s, Here(d, SaveAccept)), d)
  {
    var t := s.tags[d];
    ActReplaces(w, s, d, SaveAccept);
    SaveIs(w.p, w.provs[d], t);
    if !t.phase.Holding? {
      CountersMove(w, s, d, t);
    } else if IsData(t.phase.pdu) {
      JoinFrames.DataIsNoAccept(w.p, w.provs[d], t.phase.nonce, t.phase.pdu);
      IdleAgain(w, s, d);
    } else {
      SavesSession(w, d, t, s.lns.sessions[d].joinNonce);
      SavedAccept(w, s, d, FinishJoin(w.p, w.provs[d], t));
    }
  }

  lemma AppendUplink(w: World, s: State, d: string, m: UpMsg)
    requires d in s.tags && d in w.provs && GoodDevice(w, s, d) && !IsJoinUp(m)
    ensures var t := s.tags[d];
      GoodDevice(w, s.(tags := s.tags[d := t.(sess := AfterTake(t.sess), up := t.up + [m])]), d)
  {
    CountAppend(s.tags[d].up, m, IsJoinUp);
  }

  lemma UplinkMsgIsNoJoin(p: Primitives, sess: Session, fport: byte, data: Bytes)
    ensures var m := UplinkMsg(p, sess, fport, data); m.Some? ==> !IsJoinUp(m.value)
  {
    var devAddr, nwk, app := ParseDevAddr(sess.devAddr), ParseKey(sess.nwkSKey), ParseKey(sess.appSKey);
    if devAddr.Some? && nwk.Some? && app.Some? {
      UplinkFrameIsData(p, DataFrames.UplinkParams(devAddr.value, nwk.value, app.value, sess.fcntUp, fport, data,
          false, false, false));
    }
  }

  lemma SendIs(p: Primitives, prov: JoinFrames.Provisioning, t: TagState, fport: byte, data: Bytes, m: Option<UpMsg>)
    requires m == UplinkMsg(p, t.sess, fport, data)
    ensures var t' := Local(p, prov, t, SendUplink(fport, data));
      || t' == t
      || t' == t.(sess := AfterTake(t.sess), up := if m.Some? then t.up + [m.value] else t.up)
  {
  }

  lemma SendUplinkKeeps(w: World, s: State, d: string, fport: byte, data: Bytes, m: Option<UpMsg>)
    requires d in s.tags && d in w.provs && GoodDevice(w, s, d)
    requires m == UplinkMsg(w.p, s.tags[d].sess, fport, data) && (m.Some? ==> !IsJoinUp(m.value))
    ensures GoodDevice(w, Next(w, s, Here(d, SendUplink(fport, data))), d)
  {
    var t, t' := s.tags[d], Local(w.p, w.provs[d], s.tags[d], SendUplink(fport, data));
    ActReplaces(w, s, d, SendUplink(fport, data));
    SendIs(w.p, w.provs[d], t, fport, data, m);
    if t' == t || m.None? {
      CountersMove(w, s, d, t');
    } else {
      AppendUplink(w, s, d, m.value);
    }
  }

  /** Reading an envelope takes it off the link, and may fill joinCh or move the downlink counter. */
  lemma ReadLinkEffect(p: Primitives, t: TagState, pdu: Bytes)
    requires t.down != [] && Hex.Decode(t.down[0]) == Some(pdu)
    ensures var t' := ReadLink(p, t);
      && t' == t.(down := t.down[1..], joinCh := t'.joinCh, sess := t'.sess, received := t'.received)
      && t'.sess == t.sess.(fcntDown := t'.sess.fcntDown)
      && (t'.joinCh == t.joinCh || (t.joinCh.None? && t'.joinCh == Some(pdu)))
  {
  }

  lemma ReadIs(p: Primitives, prov: JoinFrames.Provisioning, t: TagState)
    ensures Local(p, prov, t, TagRead) == if t.down == [] then t else ReadLink(p, t)
  {
  }

  lemma TagReadKeeps(w: World, s: State, d: string)
    requires w.Valid() && d in s.tags && d in w.provs && GoodDevice(w, s, d)
    ensures GoodDevice(w, Next(w, s, Here(d, TagRead)), d)
  {
    var t := s.tags[d];
    ActReplaces(w, s, d, TagRead);
    ReadIs(w.p, w.provs[d], t);
    if t.down == [] {
      CountersMove(w, s, d, t);
    } else {
      assert GoodHex(w, s.lns, d, t.sentNonce, t.down[0]);
      ReadLinkEffect(w.p, t, Hex.Decode(t.down[0]).value);
      TookFromLink(w, s, d, ReadLink(w.p, t), Hex.Decode(t.down[0]).value);
    }
  }

  lemma TookFromLink(w: World, s: State, d: string, t': TagState, pdu: Bytes)
    requires d in s.tags && d in w.provs && GoodDevice(w, s, d)
    requires var t := s.tags[d];
      && t.down != [] && Hex.Decode(t.down[0]) == Some(pdu)
      && t' == t.(down := t.down[1..], joinCh := t'.joinCh, sess := t'.sess, received := t'.received)
      && t'.sess == t.sess.(fcntDown := t'.sess.fcntDown)
      && (t'.joinCh == t.joinCh || (t.joinCh.None? && t'.joinCh == Some(pdu)))
    ensures GoodDevice(w, s.(tags := s.tags[d := t']), d)
  {
    var t := s.tags[d];
    assert t.down == [t.down[0]] + t.down[1..];
    assert GoodHex(w, s.lns, d, t.sentNonce, t.down[0]);
  }

  /** A prefix of what the link held, with a greeting behind it, holds no more requests than before. */
  lemma CutLink(up: seq<UpMsg>, n: nat)
    requires n <= |up|
    ensures Count(up[..n] + [Hello], IsJoinUp) <= Count(up, IsJoinUp)
    ensures forall m <- up[..n] + [Hello] :: m in up || m == Hello
  {
    CountPrefix(up, n, IsJoinUp);
    CountAppend(up[..n], Hello, IsJoinUp);
  }

  lemma Reconnected(w: World, s: State, d: string, t': TagState, up: seq<UpMsg>)
    requires d in s.tags && d in w.provs && GoodDevice(w, s, d)
    requires t' == s.tags[d].(clientJoined := false, joinCh := None, phase := Idle, up := up,
                              down := [], registered := false)
    requires Count(up, IsJoinUp) <= Count(s.tags[d].up, IsJoinUp)
    requires forall m <- up :: m in s.tags[d].up || m == Hello
    ensures GoodDevice(w, s.(tags := s.tags[d := t']), d)
  {
    assert Count(t'.down, IsAccept) == 0;
    assert InHand(t') == 0;
  }

  lemma ConnectKeeps(w: World, s: State, d: string, kept: nat)
    requires w.Valid() && d in s.tags && d in w.provs && GoodDevice(w, s, d)
    ensures GoodDevice(w, Next(w, s, Here(d, Connect(kept))), d)
  {
    var up := s.tags[d].up;
    var n := if kept < |up| then kept else |up|;
    CutLink(up, n);
    assert n == |up| ==> up[..n] == up;
    Reconnected(w, s, d, Local(w.p, w.provs[d], s.tags[d], Connect(kept)), up[..n] + [Hello]);
  }

  lemma TookFromChannel(w: World, s: State, d: string)
    requires d in s.tags && d in w.provs && GoodDevice(w, s, d) && s.tags[d].phase.Waiting? && s.tags[d].joinCh.Some?
    ensures var t := s.tags[d];
      GoodDevice(w, Replaced(s, d, t.(phase := Holding(t.phase.nonce, t.joinCh.value), joinCh := None)), d)
  {
    var t := s.tags[d];
    assert InHand(t.(phase := Holding(t.phase.nonce, t.joinCh.value), joinCh := None)) == InHand(t);
  }

  lemma FlagsMove(w: World, s: State, d: string, t': TagState)
    requires d in s.tags && d in w.provs && GoodDevice(w, s, d) && !s.tags[d].phase.Holding?
    requires t' == s.tags[d].(phase := t'.phase, clientJoined := t'.clientJoined, registered := t'.registered)
    requires t'.phase.Idle? || t'.phase == s.tags[d].phase
    ensures GoodDevice(w, Replaced(s, d, t'), d)
  {
  }

  lemma UnregisterKeeps(w: World, s: State, d: string)
    requires d in s.tags && d in w.provs && GoodDevice(w, s, d)
    ensures GoodDevice(w, Replaced(s, d, s.tags[d].(registered := false)), d)
  {
  }

  lemma OtherActsKeep(w: World, s: State, d: string, act: Act)
    requires w.Valid() && d in s.tags && d in w.provs && GoodDevice(w, s, d)
    requires act.Unregister? || act.TakeAccept? || act.Announce? || act.TimeOut?
    ensures GoodDevice(w, Next(w, s, Here(d, act)), d)
  {
    var t := s.tags[d];
    ActReplaces(w, s, d, act);
    if act.Unregister? {
      UnregisterKeeps(w, s, d);
    } else if act.TakeAccept? && t.phase.Waiting? && t.joinCh.Some? {
      TookFromChannel(w, s, d);
    } else if t.phase.Holding? || act.TakeAccept? {
      CountersMove(w, s, d, t);
    } else {
      FlagsMove(w, s, d, Local(w.p, w.provs[d], t, act));
    }
  }

  function Moved(s: State, d: string, forwarded: seq<WsUp>): State
    requires d in s.tags && s.tags[d].up != []
  {
    s.(tags := s.tags[d := s.tags[d].(up := s.tags[d].up[1..])], wsUp := s.wsUp + forwarded)
  }

  predicate RightlyForwarded(s: State, d: string, forwarded: seq<WsUp>)
    requires d in s.tags && s.tags[d].up != []
  {
    && |forwarded| <= 1
    && (forall m <- forwarded :: m.JreqMsg? ==> m.jr.devEui == d && m.jr.devNonce == s.tags[d].sentNonce)
    && (!IsJoinUp(s.tags[d].up[0]) ==> forall m <- forwarded :: !m.JreqMsg?)
  }

  lemma MoveOwnUplink(w: World, s: State, d: string, forwarded: seq<WsUp>)
    requires d in s.tags && d in w.provs && GoodDevice(w, s, d)
    requires s.tags[d].up != [] && RightlyForwarded(s, d, forwarded)
    ensures GoodDevice(w, Moved(s, d, forwarded), d)
  {
    var t := s.tags[d];
    assert forall m <- t.up[1..] :: m in t.up && GoodUp(w, d, t, m);
    if forwarded == [] {
      assert s.wsUp + forwarded == s.wsUp;
    } else {
      assert forwarded == [forwarded[0]];
      CountAppend(s.wsUp, forwarded[0], JreqFor(d));
    }
  }

  lemma MoveOtherUplink(w: World, s: State, d: string, forwarded: seq<WsUp>, e: string)
    requires d in s.tags && d in w.provs && e in s.tags && e in w.provs && d != e
    requires GoodDevice(w, s, e)
    requires s.tags[d].up != [] && RightlyForwarded(s, d, forwarded)
    ensures GoodDevice(w, Moved(s, d, forwarded), e)
  {
    if forwarded == [] {
      assert s.wsUp + forwarded == s.wsUp;
    } else {
      assert forwarded == [forwarded[0]];
      CountAppend(s.wsUp, forwarded[0], JreqFor(e));
    }
  }

  lemma MoveUplink(w: World, s: State, d: string, forwarded: seq<WsUp>, e: string)
    requires d in s.tags && d in w.provs && e in s.tags && e in w.provs
    requires GoodDevice(w, s, d) && GoodDevice(w, s, e)
    requires s.tags[d].up != [] && RightlyForwarded(s, d, forwarded)
    ensures GoodDevice(w, Moved(s, d, forwarded), e)
  {
    if d == e {
      MoveOwnUplink(w, s, d, forwarded);
    } else {
      MoveOtherUplink(w, s, d, forwarded, e);
    }
  }

  lemma HelloRead(w: World, s: State, d: string, xtime: int, e: string)
    requires d in s.tags && d in w.provs && e in s.tags && e in w.provs && GoodDevice(w, s, d) && GoodDevice(w, s, e)
    requires s.tags[d].up != [] && s.tags[d].up[0].Hello?
    ensures GoodDevice(w, Next(w, s, GatewayUp(d, xtime)), e)
  {
    MoveUplink(w, s, d, [], e);
    HelloIs(w, s, d, xtime);
    RegistrationIrrelevant(w, Moved(s, d, []), d, e);
  }

  lemma HelloIs(w: World, s: State, d: string, xtime: int)
    requires d in s.tags && s.tags[d].up != [] && s.tags[d].up[0].Hello?
    ensures var moved := Moved(s, d, []);
      Next(w, s, GatewayUp(d, xtime)) == Replaced(moved, d, moved.tags[d].(registered := true))
  {
    assert s.wsUp + [] == s.wsUp;
  }

  lemma RegistrationIrrelevant(w: World, s: State, d: string, e: string)
    requires d in s.tags && e in s.tags && e in w.provs && GoodDevice(w, s, e)
    ensures GoodDevice(w, Replaced(s, d, s.tags[d].(registered := true)), e)
  {
  }

  lemma UplinkRead(w: World, s: State, d: string, xtime: int)
    requires d in s.tags && s.tags[d].up != [] && s.tags[d].up[0].Up?
    ensures Next(w, s, GatewayUp(d, xtime)) == Moved(s, d, Forwarded(s.tags[d].up[0].phy, xtime))
  {
  }

  lemma ForwardsRightly(w: World, s: State, d: string, phy: string, xtime: int)
    requires w.Valid() && d in s.tags && d in w.provs && GoodDevice(w, s, d)
    requires s.tags[d].up != [] && s.tags[d].up[0] == Up(phy)
    ensures RightlyForwarded(s, d, Forwarded(phy, xtime))
  {
    if IsJoinUp(Up(phy)) {
      assert GoodUp(w, d, s.tags[d], s.tags[d].up[0]);
      KnownRequest(w, s, d, phy, xtime);
    } else {
      OnlyRequestsForwarded(phy, xtime);
    }
  }

  lemma GatewayUpKeeps(w: World, s: State, d: string, xtime: int, e: string)
    requires w.Valid() && d in s.tags && d in w.provs && e in s.tags && e in w.provs
    requires GoodDevice(w, s, d) && GoodDevice(w, s, e)
    ensures GoodDevice(w, Next(w, s, GatewayUp(d, xtime)), e)
  {
    var t := s.tags[d];
    if t.up != [] {
      if t.up[0].Hello? {
        HelloRead(w, s, d, xtime, e);
      } else {
        UplinkRead(w, s, d, xtime);
        ForwardsRightly(w, s, d, t.up[0].phy, xtime);
        MoveUplink(w, s, d, Forwarded(t.up[0].phy, xtime), e);
      }
    }
  }

  lemma KnownRequest(w: World, s: State, d: string, phy: string, xtime: int)
    requires w.Valid() && d in s.tags && d in w.provs && GoodTag(w, s.lns, d, s.tags[d])
    requires s.tags[d].sentNonce < TWO_TO_16
    requires phy == Hex.Encode(JoinFrames.JoinRequestFrame(w.p, w.provs[d], s.tags[d].sentNonce))
    ensures |Forwarded(phy, xtime)| == 1 && JreqFor(d)(Forwarded(phy, xtime)[0])
    ensures Forwarded(phy, xtime)[0].jr.devNonce == s.tags[d].sentNonce
  {
    RequestFrame(w, d, s.tags[d].sentNonce, xtime);
  }

  /** The server has answered a request of `e`: the request is gone, its accept is on the way. */
  lemma AnsweredOwn(w: World, s: State, lns: Lns, m: Dnmsg, e: string)
    requires e in s.tags && e in w.provs && GoodDevice(w, s, e)
    requires s.wsUp != [] && JreqFor(e)(s.wsUp[0])
    requires e in lns.sessions && lns.sessions[e].devNonce == s.wsUp[0].jr.devNonce && m.devEui == e && IsAccept(m.pdu)
    requires GoodHex(w, lns, e, s.tags[e].sentNonce, m.pdu)
    ensures GoodDevice(w, s.(wsUp := s.wsUp[1..], lns := lns, wsDown := s.wsDown + [m]), e)
  {
    CountAppend(s.wsDown, m, AcceptFor(e));
    var rest := s.(wsUp := s.wsUp[1..]);
    assert Outstanding(rest, e) == 0;
    NothingUnderWay(rest, e);
  }

  /** The server has answered a request of another device. */
  lemma AnsweredOther(w: World, s: State, lns: Lns, m: Dnmsg, e: string)
    requires e in s.tags && e in w.provs && GoodDevice(w, s, e)
    requires s.wsUp != [] && !JreqFor(e)(s.wsUp[0]) && m.devEui != e
    requires e in s.lns.sessions <==> e in lns.sessions
    requires e in lns.sessions ==> lns.sessions[e] == s.lns.sessions[e]
    ensures GoodDevice(w, s.(wsUp := s.wsUp[1..], lns := lns, wsDown := s.wsDown + [m]), e)
  {
    assert s.wsUp == [s.wsUp[0]] + s.wsUp[1..];
    CountAppend(s.wsDown, m, AcceptFor(e));
  }

  /** A message the server does not answer has left the queue; a join nonce may have been used up. */
  lemma Unanswered(w: World, s: State, lns: Lns, e: string)
    requires e in s.tags && e in w.provs && GoodDevice(w, s, e)
    requires s.wsUp != [] && lns.sessions == s.lns.sessions
    ensures GoodDevice(w, s.(wsUp := s.wsUp[1..], lns := lns), e)
  {
    assert s.wsUp == [s.wsUp[0]] + s.wsUp[1..];
  }

  lemma ReplyIsGood(w: World, lns: Lns, jr: Bridge.Jreq, sentNonce: nat)
    requires jr.devNonce == sentNonce && HandleJreq(w.p, w.cfg, lns, jr).1.Some?
    ensures var (lns', reply) := HandleJreq(w.p, w.cfg, lns, jr);
      IsAccept(reply.value.pdu) && GoodHex(w, lns', jr.devEui, sentNonce, reply.value.pdu)
  {
    AcceptFrame(w, Successor(lns.joinNonce));
  }

  lemma LnsReadKeeps(w: World, s: State, e: string)
    requires w.Valid() && e in s.tags && e in w.provs && GoodDevice(w, s, e)
    ensures GoodDevice(w, Next(w, s, LnsRead), e)
  {
    if s.wsUp != [] {
      if s.wsUp[0].JreqMsg? {
        var jr := s.wsUp[0].jr;
        var (lns, reply) := HandleJreq(w.p, w.cfg, s.lns, jr);
        if reply.None? {
          Unanswered(w, s, lns, e);
        } else if jr.devEui == e {
          ReplyIsGood(w, s.lns, jr, s.tags[e].sentNonce);
          AnsweredOwn(w, s, lns, reply.value, e);
        } else {
          AnsweredOther(w, s, lns, reply.value, e);
        }
      } else {
        Unanswered(w, s, s.lns, e);
      }
    }
  }

  /** The gateway has passed the oldest downlink on to its tag. */
  lemma PassedDown(w: World, s: State, e: string)
    requires e in s.tags && e in w.provs && GoodDevice(w, s, e)
    requires s.wsDown != [] && s.wsDown[0].devEui in s.tags
    ensures var m := s.wsDown[0];
            var t := s.tags[m.devEui];
      GoodDevice(w, s.(wsDown := s.wsDown[1..], tags := s.tags[m.devEui := t.(down := t.down + [m.pdu])],
                       wsUp := s.wsUp + [DntxedMsg(m.diid)]), e)
  {
    var m := s.wsDown[0];
    assert s.wsDown == [m] + s.wsDown[1..];
    CountAppend(s.tags[m.devEui].down, m.pdu, IsAccept);
    CountAppend(s.wsUp, DntxedMsg(m.diid), JreqFor(e));
  }

  lemma GatewayDownKeeps(w: World, s: State, delivered: bool, e: string)
    requires w.Valid() && e in s.tags && e in w.provs && GoodDevice(w, s, e)
    ensures GoodDevice(w, Next(w, s, GatewayDown(delivered)), e)
  {
    if s.wsDown != [] {
      assert s.wsDown == [s.wsDown[0]] + s.wsDown[1..];
      if s.wsDown[0].devEui in s.tags {
        PassedDown(w, s, e);
      }
    }
  }

  lemma AppendPush(w: World, s: State, lns: Lns, m: Dnmsg, e: string)
    requires e in s.tags && e in w.provs && GoodDevice(w, s, e)
    requires Hex.Decode(m.pdu).Some? && IsData(Hex.Decode(m.pdu).value) && !IsAccept(m.pdu)
    requires e in s.lns.sessions <==> e in lns.sessions
    requires e in lns.sessions ==> lns.sessions[e].(fcntDown := 0) == s.lns.sessions[e].(fcntDown := 0)
    ensures GoodDevice(w, s.(lns := lns, wsDown := s.wsDown + [m]), e)
  {
    CountAppend(s.wsDown, m, AcceptFor(e));
  }

  /** A push changes one downlink counter, and may be sent. */
  lemma PushIs(w: World, s: State, d: string, fport: byte, data: Bytes, e: string)
    ensures var (lns, m) := PushClassC(w.p, w.cfg, s.lns, d, fport, data);
      && Next(w, s, Step.PushTo(d, fport, data)) ==
           s.(lns := lns, wsDown := if m.Some? then s.wsDown + [m.value] else s.wsDown)
      && (e in s.lns.sessions <==> e in lns.sessions)
      && (e in lns.sessions ==> lns.sessions[e].(fcntDown := 0) == s.lns.sessions[e].(fcntDown := 0))
      && (m.Some? ==>
            d in s.lns.sessions && m.value == Push(w.p, w.cfg, s.lns.sessions[d], d, fport, data, s.lns.diid + 1))
  {
  }

  lemma CounterPushed(w: World, s: State, lns: Lns, e: string)
    requires e in s.tags && e in w.provs && GoodDevice(w, s, e)
    requires e in s.lns.sessions <==> e in lns.sessions
    requires e in lns.sessions ==> lns.sessions[e].(fcntDown := 0) == s.lns.sessions[e].(fcntDown := 0)
    ensures GoodDevice(w, s.(lns := lns), e)
  {
  }

  lemma PushKeeps(w: World, s: State, d: string, fport: byte, data: Bytes, e: string)
    requires w.Valid() && e in s.tags && e in w.provs && GoodDevice(w, s, e)
    ensures GoodDevice(w, Next(w, s, Step.PushTo(d, fport, data)), e)
  {
    var (lns, m) := PushClassC(w.p, w.cfg, s.lns, d, fport, data);
    PushIs(w, s, d, fport, data, e);
    if m.Some? {
      PushedFrameIsData(w, s.lns.sessions[d], d, fport, data, s.lns.diid + 1);
      AppendPush(w, s, lns, m.value, e);
    } else {
      CounterPushed(w, s, lns, e);
    }
  }

  // Every disciplined run

  lemma OtherTagKeeps(w: World, s: State, d: string, act: Act, e: string)
    requires e in s.tags && e in w.provs && d != e && GoodDevice(w, s, e)
    ensures GoodDevice(w, Next(w, s, Here(d, act)), e)
  {
    if d in s.tags && d in w.provs {
      var t := Local(w.p, w.provs[d], s.tags[d], act);
      ReplaceTag(w, s, d, t, e);
    }
  }

  lemma ReplaceTag(w: World, s: State, d: string, t: TagState, e: string)
    requires e in s.tags && e in w.provs && d != e && GoodDevice(w, s, e)
    ensures GoodDevice(w, s.(tags := s.tags[d := t]), e)
  {
  }

  lemma StepKeeps(w: World, s: State, step: Step, e: string)
    requires w.Valid() && s.tags.Keys == w.provs.Keys && e in s.tags
    requires forall d <- s.tags :: GoodDevice(w, s, d)
    requires OneJoinAtATime(s, step)
    ensures GoodDevice(w, Next(w, s, step), e)
  {
    match step
    case Here(d, act) =>
      if d == e {
        ActKeeps(w, s, d, act);
      } else {
        OtherTagKeeps(w, s, d, act, e);
      }
    case GatewayUp(d, xtime) =>
      if d in s.tags {
        GatewayUpKeeps(w, s, d, xtime, e);
      }
    case LnsRead => LnsReadKeeps(w, s, e);
    case GatewayDown(delivered) => GatewayDownKeeps(w, s, delivered, e);
    case PushTo(d, fport, data) => PushKeeps(w, s, d, fport, data, e);
  }

  lemma TagsStay(w: World, s: State, step: Step)
    ensures Next(w, s, step).tags.Keys == s.tags.Keys
  {
  }

  lemma ActKeeps(w: World, s: State, d: string, act: Act)
    requires w.Valid() && d in s.tags && d in w.provs && GoodDevice(w, s, d)
    requires act.BeginJoin? ==> Outstanding(s, d) == 0
    ensures GoodDevice(w, Next(w, s, Here(d, act)), d)
  {
    match act
    case BeginJoin => BeginJoinKeeps(w, s, d);
    case SaveAccept => SaveAcceptKeeps(w, s, d);
    case SendUplink(fport, data) =>
      UplinkMsgIsNoJoin(w.p, s.tags[d].sess, fport, data);
      SendUplinkKeeps(w, s, d, fport, data, UplinkMsg(w.p, s.tags[d].sess, fport, data));
    case TagRead => TagReadKeeps(w, s, d);
    case Connect(kept) => ConnectKeeps(w, s, d, kept);
    case _ => OtherActsKeep(w, s, d, act);
  }

  lemma {:induction false} DisciplinedRunsAreGood(w: World, joinNonce: nat, steps: seq<Step>)
    requires w.Valid() && Disciplined(w, joinNonce, steps)
    ensures var s := Network.Run(w, joinNonce, steps);
      s.tags.Keys == w.provs.Keys && forall d <- s.tags :: GoodDevice(w, s, d)
  {
    if steps != [] {
      DisciplinedRunsAreGood(w, joinNonce, steps[..|steps| - 1]);
      var s := Network.Run(w, joinNonce, steps[..|steps| - 1]);
      TagsStay(w, s, steps[|steps| - 1]);
      forall d <- s.tags ensures GoodDevice(w, Next(w, s, steps[|steps| - 1]), d) {
        StepKeeps(w, s, steps[|steps| - 1], d);
      }
    }
  }

  /** In every reachable state, for every device whose stored session came from the latest join-request it sent, the
      stored keys are the ones the server derives from its remembered join nonce and DevNonce. */
  lemma CompletedJoinsAgree(w: World, joinNonce: nat, steps: seq<Step>, d: string)
    requires w.Valid() && d in w.provs && Disciplined(w, joinNonce, steps)
    ensures var s := Network.Run(w, joinNonce, steps); d in s.tags && (Completed(s.tags[d]) ==> KeysAgree(w, s, d))
  {
    DisciplinedRunsAreGood(w, joinNonce, steps);
  }
}
