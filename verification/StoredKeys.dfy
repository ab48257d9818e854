/** When a tag's stored session agrees with the server, in every run: without the discipline of one join at a time a
    tag may have saved any accept the server ever sent. */
module StoredKeys {
  import opened ByteStrings
  import opened Crypto
  import opened JoinRuns
  import opened KeyAgreement
  import opened MockLns
  import opened Network
  import opened Rejoins
  import opened Sessions
  import opened Wrappers
  import Bridge
  import Delivery
  import Hex
  import JoinFrames
  import Keys
  import StaleJoins

  // What the links hold in every run

  predicate AcceptWith(w: World, b: Bytes, n: nat) {
    JoinFrames.FitsAccept(AcceptOf(w.cfg, n)) && b == JoinFrames.JoinAcceptFrame(w.p, w.cfg.appKey, AcceptOf(w.cfg, n))
  }

  /** Every downlink is a data frame or some accept of this server. */
  ghost predicate ServerPdu(w: World, b: Bytes) {
    IsData(b) || exists n: nat :: AcceptWith(w, b, n)
  }

  predicate HexHolds(h: string, ok: Bytes -> bool) {
    Hex.Decode(h).Some? && ok(Hex.Decode(h).value)
  }

  predicate TagHolds(t: TagState, ok: Bytes -> bool) {
    && (forall h <- t.down :: HexHolds(h, ok))
    && (t.joinCh.Some? ==> ok(t.joinCh.value))
    && (t.phase.Holding? ==> ok(t.phase.pdu))
  }

  predicate LinksHold(s: State, ok: Bytes -> bool) {
    && (forall m <- s.wsDown :: HexHolds(m.pdu, ok))
    && (forall d <- s.tags :: TagHolds(s.tags[d], ok))
  }

  predicate SmallNonces(s: State) {
    && (forall m <- s.wsUp :: m.JreqMsg? ==> m.jr.devNonce < TWO_TO_16)
    && (forall d <- s.lns.sessions :: s.lns.sessions[d].devNonce < TWO_TO_16)
  }

  /** A stored session is the one of some accept of this server. */
  ghost predicate Served(w: World, t: TagState) {
    t.sess.joined ==> exists n: nat :: n < TWO_TO_24 && SessionOf(w, t, n)
  }

  // Every act of a tag

  /** The act saves no session; what the tag holds it held before, or has just read from its link. */
  predicate KeepsSession(t: TagState, t': TagState) {
    && t'.sessNonce == t.sessNonce && t'.sess.joined == t.sess.joined && t'.sess.devAddr == t.sess.devAddr
    && t'.sess.nwkSKey == t.sess.nwkSKey && t'.sess.appSKey == t.sess.appSKey
  }

  lemma StillServed(w: World, t: TagState, t': TagState)
    requires Served(w, t) && KeepsSession(t, t')
    ensures Served(w, t')
  {
    if t.sess.joined {
      var n: nat :| n < TWO_TO_24 && SessionOf(w, t, n);
      assert SessionOf(w, t', n);
    }
  }

  lemma ReadHolds(p: Primitives, t: TagState, ok: Bytes -> bool)
    requires TagHolds(t, ok) && t.down != []
    ensures TagHolds(ReadLink(p, t), ok) && KeepsSession(t, ReadLink(p, t))
  {
    assert t.down[0] in t.down;
    ReadLinkEffect(p, t, Hex.Decode(t.down[0]).value);
  }

  lemma SendHolds(
    p: Primitives, prov: JoinFrames.Provisioning, t: TagState, fport: byte, data: Bytes, ok: Bytes -> bool)
    requires TagHolds(t, ok)
    ensures var t' := Local(p, prov, t, SendUplink(fport, data)); TagHolds(t', ok) && KeepsSession(t, t')
  {
    SendIs(p, prov, t, fport, data, UplinkMsg(p, t.sess, fport, data));
  }

  lemma OtherActHolds(p: Primitives, prov: JoinFrames.Provisioning, t: TagState, act: Act, ok: Bytes -> bool)
    requires TagHolds(t, ok) && !act.TagRead? && !act.SendUplink? && !act.SaveAccept?
    ensures var t' := Local(p, prov, t, act); TagHolds(t', ok) && KeepsSession(t, t')
  {
  }

  lemma SaveServes(w: World, d: string, t: TagState, ok: Bytes -> bool)
    requires w.Valid() && d in w.provs && Served(w, t) && TagHolds(t, ok) && t.phase.Holding?
    requires ServerPdu(w, t.phase.pdu)
    ensures var t' := FinishJoin(w.p, w.provs[d], t); TagHolds(t', ok) && Served(w, t')
  {
    if IsData(t.phase.pdu) {
      JoinFrames.DataIsNoAccept(w.p, w.provs[d], t.phase.nonce, t.phase.pdu);
      StillServed(w, t, t.(phase := Idle));
    } else {
      var n: nat :| AcceptWith(w, t.phase.pdu, n);
      SavesSession(w, d, t, n);
    }
  }

  lemma ActServes(w: World, d: string, t: TagState, act: Act, ok: Bytes -> bool)
    requires w.Valid() && d in w.provs && Served(w, t) && TagHolds(t, ok)
    requires forall b :: ok(b) ==> ServerPdu(w, b)
    ensures var t' := Local(w.p, w.provs[d], t, act); TagHolds(t', ok) && Served(w, t')
  {
    var t' := Local(w.p, w.provs[d], t, act);
    if act.SaveAccept? {
      SaveIs(w.p, w.provs[d], t);
      if t.phase.Holding? {
        SaveServes(w, d, t, ok);
      }
    } else {
      if act.TagRead? {
        ReadIs(w.p, w.provs[d], t);
        if t.down != [] {
          ReadHolds(w.p, t, ok);
        }
      } else if act.SendUplink? {
        SendHolds(w.p, w.provs[d], t, act.fport, act.data, ok);
      } else {
        OtherActHolds(w.p, w.provs[d], t, act, ok);
      }
      StillServed(w, t, t');
    }
  }

  // Every step of the links

  lemma RequestNonce(phy: string, xtime: int)
    ensures forall m <- Forwarded(phy, xtime) :: m.JreqMsg? ==> m.jr.devNonce < TWO_TO_16
  {
    var r := Bridge.ParseUplink(phy, 868100000, 0, Bridge.SynthUpInfo(0, xtime));
    if r.Ok? && r.value.Join? {
      Bridge.ParsedNonceFits(phy, 868100000, 0, Bridge.SynthUpInfo(0, xtime));
    }
  }

  lemma ReplyHolds(w: World, s: State, jr: Bridge.Jreq)
    requires jr.devNonce < TWO_TO_16 && forall d <- s.lns.sessions :: s.lns.sessions[d].devNonce < TWO_TO_16
    ensures var (lns, reply) := HandleJreq(w.p, w.cfg, s.lns, jr);
      && (forall d <- lns.sessions :: lns.sessions[d].devNonce < TWO_TO_16)
      && (reply.Some? ==> Hex.Decode(reply.value.pdu).Some? && ServerPdu(w, Hex.Decode(reply.value.pdu).value))
  {
    var (lns, reply) := HandleJreq(w.p, w.cfg, s.lns, jr);
    if reply.Some? {
      AcceptFrame(w, Successor(s.lns.joinNonce));
      assert AcceptWith(w, Hex.Decode(reply.value.pdu).value, Successor(s.lns.joinNonce));
    }
  }

  lemma PushHolds(w: World, s: State, d: string, fport: byte, data: Bytes)
    requires forall e <- s.lns.sessions :: s.lns.sessions[e].devNonce < TWO_TO_16
    ensures var (lns, m) := PushClassC(w.p, w.cfg, s.lns, d, fport, data);
      && (forall e <- lns.sessions :: lns.sessions[e].devNonce < TWO_TO_16)
      && (m.Some? ==> Hex.Decode(m.value.pdu).Some? && ServerPdu(w, Hex.Decode(m.value.pdu).value))
  {
    var (lns, m) := PushClassC(w.p, w.cfg, s.lns, d, fport, data);
    if m.Some? {
      PushedFrameIsData(w, s.lns.sessions[d], d, fport, data, s.lns.diid + 1);
    }
  }

  ghost predicate Sound(w: World, s: State, ok: Bytes -> bool) {
    s.tags.Keys == w.provs.Keys && LinksHold(s, ok) && SmallNonces(s) && forall d <- s.tags :: Served(w, s.tags[d])
  }

  lemma MovedUpSound(w: World, s: State, d: string, xtime: int, ok: Bytes -> bool)
    requires Sound(w, s, ok)
    ensures Sound(w, Next(w, s, GatewayUp(d, xtime)), ok)
  {
    if d in s.tags && s.tags[d].up != [] && s.tags[d].up[0].Up? {
      UplinkRead(w, s, d, xtime);
      RequestNonce(s.tags[d].up[0].phy, xtime);
      UpSound(w, s, d, s.tags[d].(up := s.tags[d].up[1..]), s.wsUp + Forwarded(s.tags[d].up[0].phy, xtime), ok);
    } else if d in s.tags && s.tags[d].up != [] {
      HelloIs(w, s, d, xtime);
      UpSound(w, s, d, s.tags[d].(up := s.tags[d].up[1..], registered := true), s.wsUp, ok);
    }
  }

  lemma UpSound(w: World, s: State, d: string, t: TagState, wsUp: seq<WsUp>, ok: Bytes -> bool)
    requires Sound(w, s, ok) && d in s.tags && TagHolds(t, ok) && KeepsSession(s.tags[d], t)
    requires forall m <- wsUp :: m.JreqMsg? ==> m.jr.devNonce < TWO_TO_16
    ensures Sound(w, s.(tags := s.tags[d := t], wsUp := wsUp), ok)
  {
    StillServed(w, s.tags[d], t);
  }

  lemma RoutedSound(w: World, s: State, delivered: bool, ok: Bytes -> bool)
    requires Sound(w, s, ok)
    ensures Sound(w, Next(w, s, GatewayDown(delivered)), ok)
  {
    if s.wsDown != [] {
      var m, rest := s.wsDown[0], s.(wsDown := s.wsDown[1..]);
      assert m in s.wsDown && Sound(w, rest, ok);
      if m.devEui in s.tags {
        var t := s.tags[m.devEui];
        UpSound(w, rest, m.devEui, t.(down := t.down + [m.pdu]), s.wsUp + [DntxedMsg(m.diid)], ok);
      }
    }
  }

  lemma SentSound(w: World, s: State, lns: Lns, wsUp: seq<WsUp>, m: Option<Dnmsg>, ok: Bytes -> bool)
    requires Sound(w, s, ok) && forall d <- lns.sessions :: lns.sessions[d].devNonce < TWO_TO_16
    requires forall u <- wsUp :: u in s.wsUp
    requires m.Some? ==> HexHolds(m.value.pdu, ok)
    ensures Sound(w, s.(lns := lns, wsUp := wsUp, wsDown := if m.Some? then s.wsDown + [m.value] else s.wsDown), ok)
  {
  }

  lemma ServedSound(w: World, s: State, ok: Bytes -> bool)
    requires Sound(w, s, ok) && forall b :: ServerPdu(w, b) ==> ok(b)
    ensures Sound(w, Next(w, s, LnsRead), ok)
  {
    if s.wsUp != [] {
      if s.wsUp[0].JreqMsg? {
        var (lns, reply) := HandleJreq(w.p, w.cfg, s.lns, s.wsUp[0].jr);
        ReplyHolds(w, s, s.wsUp[0].jr);
        SentSound(w, s, lns, s.wsUp[1..], reply, ok);
      } else {
        SentSound(w, s, s.lns, s.wsUp[1..], None, ok);
      }
    }
  }

  lemma PushedSound(w: World, s: State, d: string, fport: byte, data: Bytes, ok: Bytes -> bool)
    requires Sound(w, s, ok) && forall b :: ServerPdu(w, b) ==> ok(b)
    ensures Sound(w, Next(w, s, Step.PushTo(d, fport, data)), ok)
  {
    var (lns, m) := PushClassC(w.p, w.cfg, s.lns, d, fport, data);
    PushHolds(w, s, d, fport, data);
    PushIs(w, s, d, fport, data, d);
    SentSound(w, s, lns, s.wsUp, m, ok);
  }

  lemma HereSound(w: World, s: State, d: string, act: Act, ok: Bytes -> bool)
    requires w.Valid() && Sound(w, s, ok) && forall b :: ok(b) ==> ServerPdu(w, b)
    ensures Sound(w, Next(w, s, Here(d, act)), ok)
  {
    if d in s.tags {
      ActReplaces(w, s, d, act);
      ActServes(w, d, s.tags[d], act, ok);
      ReplacedSound(w, s, d, Local(w.p, w.provs[d], s.tags[d], act), ok);
    }
  }

  lemma ReplacedSound(w: World, s: State, d: string, t: TagState, ok: Bytes -> bool)
    requires Sound(w, s, ok) && d in s.tags && TagHolds(t, ok) && Served(w, t)
    ensures Sound(w, Replaced(s, d, t), ok)
  {
  }

  lemma {:induction false} RunsAreSound(w: World, joinNonce: nat, steps: seq<Step>, ok: Bytes -> bool)
    requires w.Valid() && forall b :: ok(b) <==> ServerPdu(w, b)
    ensures Sound(w, Network.Run(w, joinNonce, steps), ok)
  {
    if steps != [] {
      var s, step := Network.Run(w, joinNonce, steps[..|steps| - 1]), steps[|steps| - 1];
      RunsAreSound(w, joinNonce, steps[..|steps| - 1], ok);
      RunLast(w, joinNonce, steps, steps[..|steps| - 1], step);
      match step
      case Here(d, act) => HereSound(w, s, d, act, ok);
      case GatewayUp(d, xtime) => MovedUpSound(w, s, d, xtime, ok);
      case LnsRead => ServedSound(w, s, ok);
      case GatewayDown(delivered) => RoutedSound(w, s, delivered, ok);
      case PushTo(d, fport, data) => PushedSound(w, s, d, fport, data, ok);
    }
  }

  // Agreement, exactly

  /** The join nonce the stored network key was derived from. */
  function JoinNonceOf(w: World, t: TagState): nat {
    match ParseKey(t.sess.nwkSKey)
    case Some(nwk) => Keys.KeyJoinNonce(w.p, w.cfg.appKey, nwk)
    case None => 0
  }

  lemma JoinNonceOfSession(w: World, t: TagState, n: nat)
    requires w.p.Lawful() && SessionOf(w, t, n) && n < TWO_TO_24 && t.sessNonce < TWO_TO_16
    ensures JoinNonceOf(w, t) == n
  {
    var keys := Keys.KeysOf(w.p, w.cfg.appKey, w.cfg.netId, n, t.sessNonce);
    ParseKeyRoundTrip(keys.nwk);
    Keys.KeyOrigin(w.p, Keys.NWK_SKEY, w.cfg.appKey, w.cfg.netId, n, t.sessNonce);
  }

  lemma SessionAgreesIff(w: World, s: State, d: string, n: nat)
    requires w.p.Lawful() && d in s.tags && SessionOf(w, s.tags[d], n) && n < TWO_TO_24
    requires s.tags[d].sessNonce < TWO_TO_16
    requires d in s.lns.sessions ==>
      s.lns.sessions[d].joinNonce < TWO_TO_24 && s.lns.sessions[d].devNonce < TWO_TO_16
    ensures KeysAgree(w, s, d) <==>
      d in s.lns.sessions && s.lns.sessions[d].joinNonce == n && s.lns.sessions[d].devNonce == s.tags[d].sessNonce
  {
    if d in s.lns.sessions {
      StaleJoins.SameKeysIff(w, n, s.tags[d].sessNonce, s.lns.sessions[d]);
    }
  }

  /** In every reachable state of every run, whatever joins were under way together: a stored session agrees with the
      server if and only if the join it came from, by join nonce and DevNonce, is the one the server remembers for the
      device. */
  lemma StoredKeysAgreeIff(w: World, joinNonce: nat, steps: seq<Step>, d: string)
    requires w.Valid() && d in w.provs
    requires var s := Network.Run(w, joinNonce, steps); d in s.tags && s.tags[d].sess.joined
    ensures var s := Network.Run(w, joinNonce, steps);
      KeysAgree(w, s, d) <==>
        && d in s.lns.sessions
        && s.lns.sessions[d].joinNonce == JoinNonceOf(w, s.tags[d])
        && s.lns.sessions[d].devNonce == s.tags[d].sessNonce
  {
    var s := Network.Run(w, joinNonce, steps);
    RunsAreSound(w, joinNonce, steps, b => ServerPdu(w, b));
    TagsAreSound(w, joinNonce, steps, d);
    Delivery.ServerNoncesFit(w, joinNonce, steps);
    var n: nat :| n < TWO_TO_24 && SessionOf(w, s.tags[d], n);
    JoinNonceOfSession(w, s.tags[d], n);
    SessionAgreesIff(w, s, d, n);
  }
}
