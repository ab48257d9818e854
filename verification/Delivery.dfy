/** Class C pushes to a joined tag arrive exactly once, in order and intact, whatever else the network does
    meanwhile. */
module Delivery {
  import opened ByteStrings
  import opened Crypto
  import opened JoinRuns
  import opened KeyAgreement
  import opened MockLns
  import opened Network
  import opened Rejoins
  import opened Sessions
  import opened Wrappers
  import Bridge
  import DataFrames
  import Hex
  import JoinFrames
  import Keys
  import StaleJoins

  /** One push: FPort and payload. */
  datatype Payload = Payload(fport: byte, data: Bytes)

  /** The pushes to a device, in order. */
  function PushesTo(steps: seq<Step>, d: string): seq<Payload> {
    if steps == [] then []
    else
      var earlier, last := PushesTo(steps[..|steps| - 1], d), steps[|steps| - 1];
      if last.PushTo? && last.d == d then earlier + [Payload(last.fport, last.data)] else earlier
  }

  /** The n-th push as the application should see it. */
  function Expected(pushes: seq<Payload>, n: nat): DataFrames.Downlink
    requires n < |pushes|
  {
    DataFrames.Downlink(pushes[n].fport, n, false, false, false, pushes[n].data, [])
  }

  /** The first n pushes as the application should see them. */
  function ExpectedPrefix(pushes: seq<Payload>, n: nat): seq<DataFrames.Downlink>
    requires n <= |pushes|
  {
    if n == 0 then [] else ExpectedPrefix(pushes, n - 1) + [Expected(pushes, n - 1)]
  }

  /** How the n-th push of a session looks on the links. */
  type Renderer = (nat, Payload) -> string

  function FrameHex(w: World, keys: Keys.SessionKeys): Renderer {
    (n: nat, x: Payload) =>
      Hex.Encode(DataFrames.DownlinkFrame(w.p, keys.nwk, keys.app, w.cfg.devAddr, n, x.fport, x.data))
  }

  /** The downlinks of device `d` among those the server has sent and the gateway has not read. */
  function Queued(q: seq<Dnmsg>, d: string): seq<string> {
    if q == [] then [] else (if q[0].devEui == d then [q[0].pdu] else []) + Queued(q[1..], d)
  }

  lemma {:induction false} QueuedAppend(q: seq<Dnmsg>, m: Dnmsg, d: string)
    ensures Queued(q + [m], d) == Queued(q, d) + if m.devEui == d then [m.pdu] else []
  {
    if q == [] {
      assert q + [m] == [m];
      assert [m][1..] == [];
    } else {
      QueuedAppend(q[1..], m, d);
      assert (q + [m])[1..] == q[1..] + [m];
    }
  }

  /** All downlinks on their way to the tag, oldest first. */
  function InTransit(s: State, d: string): seq<string>
    requires d in s.tags
  {
    s.tags[d].down + Queued(s.wsDown, d)
  }

  /** The session keys a joined tag holds. */
  predicate Holds(w: World, t: TagState, keys: Keys.SessionKeys) {
    && t.clientJoined && t.registered && t.sess.joined && Completed(t) && Readable(t.sess)
    && (t.phase.Idle? || t.phase.Saved?)
    && t.sess.nwkSKey == Hex.Encode(keys.nwk) && t.sess.appSKey == Hex.Encode(keys.app)
    && t.sess.devAddr == Hex.Encode(w.cfg.devAddr)
  }

  function KeysFor(w: World, info: JoinInfo): Keys.SessionKeys {
    Keys.KeysOf(w.p, w.cfg.appKey, w.cfg.netId, info.joinNonce, info.devNonce)
  }

  /** A joined tag with nothing on the way to it, to which nothing has been pushed in this session. */
  predicate Ready(w: World, s: State, d: string) {
    && d in s.tags && d in s.lns.sessions
    && Holds(w, s.tags[d], KeysFor(w, s.lns.sessions[d]))
    && s.lns.sessions[d].joinNonce < TWO_TO_24 && s.lns.sessions[d].fcntDown == 0 && s.tags[d].sess.fcntDown == 0
    && InTransit(s, d) == []
  }

  /** The tag keeps its connection and starts no join, and no write to it fails. */
  predicate Undisturbed(s: State, step: Step, d: string) {
    && !(step.Here? && step.d == d && (step.act.Connect? || step.act.Unregister? || step.act.BeginJoin?))
    && (step == GatewayDown(false) && s.wsDown != [] ==> s.wsDown[0].devEui != d)
  }

  predicate UndisturbedRun(w: World, joinNonce: nat, before: seq<Step>, more: seq<Step>, d: string) {
    more == []
    || (&& UndisturbedRun(w, joinNonce, before, more[..|more| - 1], d)
        && Undisturbed(Network.Run(w, joinNonce, before + more[..|more| - 1]), more[|more| - 1], d))
  }

  /** Each push can be read back: a non-empty payload does not go to FPort 0. */
  predicate Readables(pushes: seq<Payload>) {
    forall x <- pushes :: x.fport > 0 || x.data == []
  }

  // The invariant: `n` pushes have been received, the rest are in transit

  predicate Delivering(w: World, s: State, d: string, pushes: seq<Payload>, n: nat, keys: Keys.SessionKeys,
      frame: Renderer) {
    && d in s.tags && d in s.lns.sessions && n <= |pushes|
    && Holds(w, s.tags[d], keys) && KeysFor(w, s.lns.sessions[d]) == keys
    && s.lns.sessions[d].joinNonce < TWO_TO_24 && s.lns.sessions[d].fcntDown == |pushes|
    && s.tags[d].sess.fcntDown == (if n == 0 then 0 else n - 1)
    && FramesFrom(frame, pushes, n, InTransit(s, d))
  }

  /** The frames of the pushes from the n-th on. */
  predicate FramesFrom(frame: Renderer, pushes: seq<Payload>, n: nat, frames: seq<string>)
    requires n <= |pushes|
  {
    && |frames| == |pushes| - n
    && (forall i :: 0 <= i < |frames| ==> frames[i] == frame(n + i, pushes[n + i]))
  }

  lemma FramesExtend(frame: Renderer, pushes: seq<Payload>, n: nat, frames: seq<string>, x: Payload)
    requires n <= |pushes| && FramesFrom(frame, pushes, n, frames)
    ensures FramesFrom(frame, pushes + [x], n, frames + [frame(|pushes|, x)])
  {
  }

  lemma FramesAdvance(frame: Renderer, pushes: seq<Payload>, n: nat, frames: seq<string>)
    requires n < |pushes| && FramesFrom(frame, pushes, n, frames)
    ensures FramesFrom(frame, pushes, n + 1, frames[1..])
  {
    forall i | 0 <= i < |frames[1..]| ensures frames[1..][i] == frame(n + 1 + i, pushes[n + 1 + i]) {
      assert frames[1..][i] == frames[i + 1];
    }
  }

  /** Changing neither the tag's session and link nor its place at the server keeps the invariant. */
  lemma KeptWhenUntouched(
    w: World, s: State, s': State, d: string, pushes: seq<Payload>, n: nat, keys: Keys.SessionKeys, frame: Renderer)
    requires Delivering(w, s, d, pushes, n, keys, frame)
    requires d in s'.tags && d in s'.lns.sessions && s'.lns.sessions[d] == s.lns.sessions[d]
    requires Holds(w, s'.tags[d], keys) && s'.tags[d].sess.fcntDown == s.tags[d].sess.fcntDown
    requires InTransit(s', d) == InTransit(s, d)
    ensures Delivering(w, s', d, pushes, n, keys, frame)
  {
  }

  lemma ReadWith(p: Primitives, sess: Session, keys: Keys.SessionKeys, devAddr: Bytes, frame: Bytes)
    requires |devAddr| == 4 && Readable(sess) && sess.joined
    requires sess.nwkSKey == Hex.Encode(keys.nwk) && sess.appSKey == Hex.Encode(keys.app)
    requires sess.devAddr == Hex.Encode(devAddr)
    ensures ReadDownlink(p, sess, frame) == DataFrames.DownlinkResult(p, keys.nwk, keys.app, frame)
  {
    ParseKeyRoundTrip(keys.nwk);
    ParseKeyRoundTrip(keys.app);
    ParseDevAddrRoundTrip(devAddr);
  }

  /** The next push is read back as sent. */
  lemma ReadsNext(w: World, sess: Session, pushes: seq<Payload>, n: nat, keys: Keys.SessionKeys)
    requires n < |pushes| <= TWO_TO_16 && Readables(pushes)
    requires Readable(sess) && sess.joined && sess.fcntDown <= n
    requires sess.nwkSKey == Hex.Encode(keys.nwk) && sess.appSKey == Hex.Encode(keys.app)
    requires sess.devAddr == Hex.Encode(w.cfg.devAddr)
    ensures var h := FrameHex(w, keys)(n, pushes[n]);
      Hex.Decode(h).Some? && Taken(w.p, sess, Hex.Decode(h).value) == Some(Expected(pushes, n))
  {
    assert pushes[n] in pushes;
    var frame := DataFrames.DownlinkFrame(w.p, keys.nwk, keys.app, w.cfg.devAddr, n, pushes[n].fport, pushes[n].data);
    Hex.RoundTrip(frame);
    ReadWith(w.p, sess, keys, w.cfg.devAddr, frame);
    DataFrames.DownlinkRoundTrip(w.p, keys.nwk, keys.app, w.cfg.devAddr, n, pushes[n].fport, pushes[n].data);
  }

  lemma ActsOnOneTag(w: World, s: State, d: string, act: Act)
    requires d in s.tags && d in w.provs
    ensures Next(w, s, Here(d, act)) == s.(tags := s.tags[d := Local(w.p, w.provs[d], s.tags[d], act)])
  {
  }

  lemma TagReadIs(w: World, t: TagState, d: string)
    requires d in w.provs && t.down != []
    ensures Local(w.p, w.provs[d], t, TagRead) == ReadLink(w.p, t)
  {
  }

  lemma LinkRead(p: Primitives, t: TagState, pdu: Bytes, dl: DataFrames.Downlink)
    requires t.down != [] && Hex.Decode(t.down[0]) == Some(pdu)
    requires t.clientJoined && Taken(p, t.sess, pdu) == Some(dl)
    ensures ReadLink(p, t) == t.(down := t.down[1..], sess := AfterDown(t.sess, dl.fcnt), received := t.received + [dl])
  {
  }

  /** The tag has handed the oldest downlink to the application. */
  lemma Advanced(
    w: World, s: State, t': TagState, d: string, pushes: seq<Payload>, n: nat, keys: Keys.SessionKeys, frame: Renderer,
    dl: DataFrames.Downlink)
    requires Delivering(w, s, d, pushes, n, keys, frame) && n < |pushes| <= TWO_TO_16
    requires s.tags[d].down != []
    requires var t := s.tags[d];
      t' == t.(down := t.down[1..], sess := AfterDown(t.sess, n), received := t.received + [dl])
    ensures Delivering(w, s.(tags := s.tags[d := t']), d, pushes, n + 1, keys, frame)
  {
    var s' := s.(tags := s.tags[d := t']);
    assert InTransit(s', d) == InTransit(s, d)[1..];
    FramesAdvance(frame, pushes, n, InTransit(s, d));
  }

  lemma HeadInTransit(
    w: World, s: State, d: string, pushes: seq<Payload>, n: nat, keys: Keys.SessionKeys, frame: Renderer)
    requires Delivering(w, s, d, pushes, n, keys, frame) && s.tags[d].down != []
    ensures n < |pushes| && s.tags[d].down[0] == frame(n, pushes[n])
  {
    assert s.tags[d].down[0] == InTransit(s, d)[0];
  }

  lemma TagReadDelivers(
    w: World, s: State, d: string, pushes: seq<Payload>, n: nat, keys: Keys.SessionKeys, frame: Renderer)
    requires d in w.provs && |pushes| <= TWO_TO_16 && Readables(pushes) && Delivering(w, s, d, pushes, n, keys, frame)
    requires frame == FrameHex(w, keys) && s.tags[d].down != []
    ensures n < |pushes|
    ensures var s' := Next(w, s, Here(d, TagRead));
      && Delivering(w, s', d, pushes, n + 1, keys, frame)
      && s'.tags[d].received == s.tags[d].received + [Expected(pushes, n)]
  {
    HeadInTransit(w, s, d, pushes, n, keys, frame);
    var t := s.tags[d];
    ReadsNext(w, t.sess, pushes, n, keys);
    var pdu := Hex.Decode(t.down[0]).value;
    LinkRead(w.p, t, pdu, Expected(pushes, n));
    TagReadIs(w, t, d);
    ActsOnOneTag(w, s, d, TagRead);
    Advanced(w, s, ReadLink(w.p, t), d, pushes, n, keys, frame, Expected(pushes, n));
  }

  lemma Pushed(w: World, lns: Lns, d: string, x: Payload)
    requires d in lns.sessions && lns.sessions[d].joinNonce < TWO_TO_24
    ensures var (lns', m) := PushClassC(w.p, w.cfg, lns, d, x.fport, x.data);
      && m.Some? && m.value.devEui == d
      && m.value.pdu == FrameHex(w, KeysFor(w, lns.sessions[d]))(lns.sessions[d].fcntDown, x)
      && d in lns'.sessions && lns'.sessions[d] == lns.sessions[d].(fcntDown := Successor(lns.sessions[d].fcntDown))
  {
  }

  lemma PushEffect(w: World, s: State, d: string, x: Payload, m: Dnmsg)
    requires PushClassC(w.p, w.cfg, s.lns, d, x.fport, x.data).1 == Some(m)
    ensures Next(w, s, Step.PushTo(d, x.fport, x.data))
         == s.(lns := PushClassC(w.p, w.cfg, s.lns, d, x.fport, x.data).0, wsDown := s.wsDown + [m])
  {
  }

  lemma Appended(
    w: World, s: State, lns: Lns, m: Dnmsg, d: string, x: Payload, pushes: seq<Payload>, n: nat,
    keys: Keys.SessionKeys, frame: Renderer)
    requires Delivering(w, s, d, pushes, n, keys, frame) && d in lns.sessions
    requires |pushes| < TWO_TO_16 && lns.sessions[d] == s.lns.sessions[d].(fcntDown := |pushes| + 1)
    requires m.devEui == d && m.pdu == frame(|pushes|, x)
    ensures Delivering(w, s.(lns := lns, wsDown := s.wsDown + [m]), d, pushes + [x], n, keys, frame)
  {
    var s' := s.(lns := lns, wsDown := s.wsDown + [m]);
    QueuedAppend(s.wsDown, m, d);
    FramesExtend(frame, pushes, n, InTransit(s, d), x);
    assert InTransit(s', d) == InTransit(s, d) + [frame(|pushes|, x)];
  }

  lemma PushDelivers(
    w: World, s: State, d: string, x: Payload, pushes: seq<Payload>, n: nat, keys: Keys.SessionKeys, frame: Renderer)
    requires |pushes| < TWO_TO_16 && Delivering(w, s, d, pushes, n, keys, frame) && frame == FrameHex(w, keys)
    ensures var s' := Next(w, s, Step.PushTo(d, x.fport, x.data));
      Delivering(w, s', d, pushes + [x], n, keys, frame) && s'.tags == s.tags
  {
    var (lns, m) := PushClassC(w.p, w.cfg, s.lns, d, x.fport, x.data);
    Pushed(w, s.lns, d, x);
    PushEffect(w, s, d, x, m.value);
    Appended(w, s, lns, m.value, d, x, pushes, n, keys, frame);
  }

  // The other steps

  lemma PushIsFor(p: Primitives, cfg: Config, lns: Lns, e: string, fport: byte, data: Bytes, d: string)
    requires d in lns.sessions && e != d
    ensures var (lns', m) := PushClassC(p, cfg, lns, e, fport, data);
      && (m.Some? ==> m.value.devEui == e)
      && d in lns'.sessions && lns'.sessions[d] == lns.sessions[d]
  {
  }

  lemma SentToAnother(q: seq<Dnmsg>, m: Option<Dnmsg>, d: string)
    requires m.Some? ==> m.value.devEui != d
    ensures Queued(if m.Some? then q + [m.value] else q, d) == Queued(q, d)
  {
    if m.Some? {
      QueuedAppend(q, m.value, d);
    }
  }

  lemma OtherPush(w: World, s: State, e: string, fport: byte, data: Bytes, d: string)
    requires e != d && d in s.tags && d in s.lns.sessions
    ensures var s' := Next(w, s, Step.PushTo(e, fport, data));
      && s'.tags == s.tags && Queued(s'.wsDown, d) == Queued(s.wsDown, d)
      && d in s'.lns.sessions && s'.lns.sessions[d] == s.lns.sessions[d]
  {
    PushIsFor(w.p, w.cfg, s.lns, e, fport, data, d);
    SentToAnother(s.wsDown, PushClassC(w.p, w.cfg, s.lns, e, fport, data).1, d);
  }

  lemma OtherRequest(w: World, s: State, d: string)
    requires d in s.tags && d in s.lns.sessions && (s.wsUp != [] ==> !JreqFor(d)(s.wsUp[0]))
    ensures var s' := Next(w, s, LnsRead);
      && s'.tags == s.tags && Queued(s'.wsDown, d) == Queued(s.wsDown, d)
      && d in s'.lns.sessions && s'.lns.sessions[d] == s.lns.sessions[d]
  {
    if s.wsUp != [] && s.wsUp[0].JreqMsg? {
      var jr := s.wsUp[0].jr;
      var reply := HandleJreq(w.p, w.cfg, s.lns, jr).1;
      if reply.Some? {
        assert reply.value.devEui == jr.devEui;
        QueuedAppend(s.wsDown, reply.value, d);
      }
    }
  }

  lemma Routed(w: World, s: State, delivered: bool, d: string)
    requires d in s.tags && s.tags[d].registered && Undisturbed(s, GatewayDown(delivered), d)
    ensures var s' := Next(w, s, GatewayDown(delivered));
      && s'.lns == s.lns && d in s'.tags && InTransit(s', d) == InTransit(s, d)
      && s'.tags[d] == s.tags[d].(down := s'.tags[d].down)
  {
  }

  lemma ReadByGateway(w: World, s: State, e: string, xtime: int, d: string)
    requires d in s.tags && s.tags[d].registered
    ensures var s' := Next(w, s, GatewayUp(e, xtime));
      && s'.lns == s.lns && s'.wsDown == s.wsDown && d in s'.tags && s'.tags[d] == s.tags[d].(up := s'.tags[d].up)
  {
  }

  /** What a joined, undisturbed tag does besides reading: it may send uplinks. */
  lemma OwnActs(w: World, t: TagState, d: string, act: Act, keys: Keys.SessionKeys)
    requires d in w.provs && Holds(w, t, keys) && t.sess.fcntUp + 1 < TWO_TO_32
    requires !act.Connect? && !act.Unregister? && !act.BeginJoin? && (act.TagRead? ==> t.down == [])
    ensures var t' := Local(w.p, w.provs[d], t, act);
      && Holds(w, t', keys) && t'.down == t.down && t'.received == t.received
      && t'.sess.fcntDown == t.sess.fcntDown && t'.sess.fcntUp <= t.sess.fcntUp + 1
  {
  }

  function Extended(pushes: seq<Payload>, step: Step, d: string): seq<Payload> {
    if step.PushTo? && step.d == d then pushes + [Payload(step.fport, step.data)] else pushes
  }

  /** `n'` of the pushes have been received; the one more than before, if any, is the oldest outstanding. */
  predicate Progress(
    w: World, s: State, s': State, d: string, pushes: seq<Payload>, n: nat, n': nat, keys: Keys.SessionKeys)
    requires d in s.tags
  {
    && n <= n' <= n + 1
    && Delivering(w, s', d, pushes, n', keys, FrameHex(w, keys))
    && s'.tags[d].sess.fcntUp <= s.tags[d].sess.fcntUp + 1
    && s'.tags[d].received == s.tags[d].received + if n' == n then [] else [Expected(pushes, n)]
  }

  lemma ActDelivers(w: World, s: State, e: string, act: Act, d: string, pushes: seq<Payload>, n: nat,
      keys: Keys.SessionKeys)
    returns (n': nat)
    requires d in w.provs && Delivering(w, s, d, pushes, n, keys, FrameHex(w, keys)) && Undisturbed(s, Here(e, act), d)
    requires |pushes| <= TWO_TO_16 && Readables(pushes) && s.tags[d].sess.fcntUp + 1 < TWO_TO_32
    ensures Progress(w, s, Next(w, s, Here(e, act)), d, pushes, n, n', keys)
  {
    if e != d {
      n' := n;
      OtherTagActs(w, s, e, act, d);
      KeptWhenUntouched(w, s, Next(w, s, Here(e, act)), d, pushes, n, keys, FrameHex(w, keys));
    } else {
      n' := OwnActDelivers(w, s, act, d, pushes, n, keys);
    }
  }

  lemma OtherTagActs(w: World, s: State, e: string, act: Act, d: string)
    requires e != d && d in s.tags
    ensures var s' := Next(w, s, Here(e, act));
      d in s'.tags && s'.tags[d] == s.tags[d] && s'.wsDown == s.wsDown && s'.lns == s.lns
  {
  }

  lemma OwnActDelivers(w: World, s: State, act: Act, d: string, pushes: seq<Payload>, n: nat, keys: Keys.SessionKeys)
    returns (n': nat)
    requires d in w.provs && Delivering(w, s, d, pushes, n, keys, FrameHex(w, keys)) && Undisturbed(s, Here(d, act), d)
    requires |pushes| <= TWO_TO_16 && Readables(pushes) && s.tags[d].sess.fcntUp + 1 < TWO_TO_32
    ensures Progress(w, s, Next(w, s, Here(d, act)), d, pushes, n, n', keys)
  {
    n' := n;
    ActsOnOneTag(w, s, d, act);
    if act.TagRead? && s.tags[d].down != [] {
      TagReadDelivers(w, s, d, pushes, n, keys, FrameHex(w, keys));
      n' := n + 1;
      ReadingKeepsUplinks(w, s.tags[d], d);
    } else {
      OwnActs(w, s.tags[d], d, act, keys);
      KeptWhenUntouched(w, s, Next(w, s, Here(d, act)), d, pushes, n, keys, FrameHex(w, keys));
    }
  }

  lemma ReadingKeepsUplinks(w: World, t: TagState, d: string)
    requires d in w.provs
    ensures Local(w.p, w.provs[d], t, TagRead).sess.fcntUp == t.sess.fcntUp
  {
  }

  lemma StepDelivers(w: World, s: State, step: Step, d: string, pushes: seq<Payload>, n: nat, keys: Keys.SessionKeys)
    returns (n': nat)
    requires w.Valid() && d in w.provs && Delivering(w, s, d, pushes, n, keys, FrameHex(w, keys))
    requires Outstanding(s, d) == 0 && Undisturbed(s, step, d)
    requires var pushes' := Extended(pushes, step, d); |pushes'| <= TWO_TO_16 && Readables(pushes')
    requires s.tags[d].sess.fcntUp + 1 < TWO_TO_32
    ensures Progress(w, s, Next(w, s, step), d, Extended(pushes, step, d), n, n', keys)
  {
    n' := n;
    match step
    case Here(e, act) => n' := ActDelivers(w, s, e, act, d, pushes, n, keys);
    case PushTo(e, fport, data) =>
      if e == d {
        PushDelivers(w, s, d, Payload(fport, data), pushes, n, keys, FrameHex(w, keys));
      } else {
        OtherPush(w, s, e, fport, data, d);
        KeptWhenUntouched(w, s, Next(w, s, step), d, pushes, n, keys, FrameHex(w, keys));
      }
    case GatewayUp(e, xtime) =>
      ReadByGateway(w, s, e, xtime, d);
      KeptWhenUntouched(w, s, Next(w, s, step), d, pushes, n, keys, FrameHex(w, keys));
    case GatewayDown(delivered) =>
      Routed(w, s, delivered, d);
      KeptWhenUntouched(w, s, Next(w, s, step), d, pushes, n, keys, FrameHex(w, keys));
    case LnsRead =>
      NothingUnderWay(s, d);
      OtherRequest(w, s, d);
      KeptWhenUntouched(w, s, Next(w, s, step), d, pushes, n, keys, FrameHex(w, keys));
  }

  // Every run from a ready tag

  lemma {:induction false} PrefixOfLonger(pushes: seq<Payload>, x: Payload, n: nat)
    requires n <= |pushes|
    ensures ExpectedPrefix(pushes + [x], n) == ExpectedPrefix(pushes, n)
  {
    if n > 0 {
      PrefixOfLonger(pushes, x, n - 1);
    }
  }

  /** What one step may add to the downlinks received. */
  function Added(pushes: seq<Payload>, n: nat, n': nat): seq<DataFrames.Downlink>
    requires n <= n' && (n == n' || n < |pushes|)
  {
    if n' == n then [] else [Expected(pushes, n)]
  }

  lemma PrefixGrows(pushes: seq<Payload>, longer: seq<Payload>, n: nat, n': nat)
    requires n <= |pushes| <= |longer| && ExpectedPrefix(longer, n) == ExpectedPrefix(pushes, n)
    requires n <= n' <= n + 1 && n' <= |longer|
    ensures ExpectedPrefix(longer, n') == ExpectedPrefix(pushes, n) + Added(longer, n, n')
  {
    if n' > n {
      NextInPrefix(longer, n);
    }
  }

  lemma SamePrefix(pushes: seq<Payload>, step: Step, d: string, n: nat)
    requires n <= |pushes|
    ensures |pushes| <= |Extended(pushes, step, d)|
    ensures ExpectedPrefix(Extended(pushes, step, d), n) == ExpectedPrefix(pushes, n)
  {
    if step.PushTo? && step.d == d {
      PrefixOfLonger(pushes, Payload(step.fport, step.data), n);
    }
  }

  lemma NextInPrefix(pushes: seq<Payload>, n: nat)
    requires n < |pushes|
    ensures ExpectedPrefix(pushes, n + 1) == ExpectedPrefix(pushes, n) + [Expected(pushes, n)]
  {
  }

  /** `n` pushes have been received since `start`, in order and intact, and the rest are in transit. */
  predicate Arriving(w: World, start: State, s: State, d: string, pushes: seq<Payload>, n: nat, keys: Keys.SessionKeys)
    requires d in start.tags
  {
    && Delivering(w, s, d, pushes, n, keys, FrameHex(w, keys))
    && s.tags[d].received == start.tags[d].received + ExpectedPrefix(pushes, n)
  }

  lemma OneMoreStep(
    w: World, start: State, s: State, step: Step, d: string, pushes: seq<Payload>, n: nat, keys: Keys.SessionKeys)
    returns (n': nat)
    requires w.Valid() && d in w.provs && d in start.tags && Arriving(w, start, s, d, pushes, n, keys)
    requires Outstanding(s, d) == 0 && Undisturbed(s, step, d)
    requires var pushes' := Extended(pushes, step, d); |pushes'| <= TWO_TO_16 && Readables(pushes')
    requires s.tags[d].sess.fcntUp + 1 < TWO_TO_32
    ensures Arriving(w, start, Next(w, s, step), d, Extended(pushes, step, d), n', keys)
    ensures Next(w, s, step).tags[d].sess.fcntUp <= s.tags[d].sess.fcntUp + 1
  {
    ShorterIsReadable(pushes, step, d);
    n' := StepDelivers(w, s, step, d, pushes, n, keys);
    SamePrefix(pushes, step, d, n);
    PrefixGrows(pushes, Extended(pushes, step, d), n, n');
  }

  /** From a joined tag that has received nothing yet, through any undisturbed run: of the pushes to it, the
      oldest `n` have been handed to the application, once each, in order, with counters 0 to n - 1 and their own
      payloads; the rest are in transit. */
  lemma {:induction false} PushesArriveInOrder(w: World, joinNonce: nat, before: seq<Step>, more: seq<Step>,
      d: string) returns (n: nat)
    requires w.Valid() && d in w.provs && Disciplined(w, joinNonce, before + more)
    requires Ready(w, Network.Run(w, joinNonce, before), d) && UndisturbedRun(w, joinNonce, before, more, d)
    requires |PushesTo(more, d)| <= TWO_TO_16 && Readables(PushesTo(more, d))
    requires Network.Run(w, joinNonce, before).tags[d].sess.fcntUp + |more| < TWO_TO_32
    ensures var start, s := Network.Run(w, joinNonce, before), Network.Run(w, joinNonce, before + more);
      && Arriving(w, start, s, d, PushesTo(more, d), n, KeysFor(w, start.lns.sessions[d]))
      && s.tags[d].sess.fcntUp <= start.tags[d].sess.fcntUp + |more|
    decreases |more|
  {
    var start := Network.Run(w, joinNonce, before);
    if more == [] {
      assert before + more == before;
      n := 0;
    } else {
      var most, last := more[..|more| - 1], more[|more| - 1];
      assert (before + more)[..|before + more| - 1] == before + most;
      ShorterIsReadable(PushesTo(most, d), last, d);
      var m := PushesArriveInOrder(w, joinNonce, before, most, d);
      DisciplinedRunsAreGood(w, joinNonce, before + most);
      n := OneMoreStep(w, start, Network.Run(w, joinNonce, before + most), last, d, PushesTo(most, d), m,
                       KeysFor(w, start.lns.sessions[d]));
    }
  }

  lemma ShorterIsReadable(pushes: seq<Payload>, step: Step, d: string)
    requires Readables(Extended(pushes, step, d))
    ensures Readables(pushes) && |pushes| <= |Extended(pushes, step, d)|
  {
    if step.PushTo? && step.d == d {
      assert forall x <- pushes :: x in pushes + [Payload(step.fport, step.data)];
    }
  }

  /** Once nothing is in transit any more, every push has been received. */
  lemma AllPushesArrive(w: World, joinNonce: nat, before: seq<Step>, more: seq<Step>, d: string)
    requires w.Valid() && d in w.provs && Disciplined(w, joinNonce, before + more)
    requires Ready(w, Network.Run(w, joinNonce, before), d) && UndisturbedRun(w, joinNonce, before, more, d)
    requires |PushesTo(more, d)| <= TWO_TO_16 && Readables(PushesTo(more, d))
    requires Network.Run(w, joinNonce, before).tags[d].sess.fcntUp + |more| < TWO_TO_32
    ensures var start, s := Network.Run(w, joinNonce, before), Network.Run(w, joinNonce, before + more);
            var pushes := PushesTo(more, d);
      && d in s.tags
      && (InTransit(s, d) == [] ==> s.tags[d].received == start.tags[d].received + ExpectedPrefix(pushes, |pushes|))
  {
    var n := PushesArriveInOrder(w, joinNonce, before, more, d);
  }

  // A completed join leaves the tag ready

  predicate NoncesFit(lns: Lns) {
    forall d <- lns.sessions :: lns.sessions[d].joinNonce < TWO_TO_24
  }

  lemma HandleKeepsFit(p: Primitives, cfg: Config, lns: Lns, jr: Bridge.Jreq)
    requires NoncesFit(lns)
    ensures NoncesFit(HandleJreq(p, cfg, lns, jr).0)
  {
  }

  lemma PushKeepsFit(p: Primitives, cfg: Config, lns: Lns, d: string, fport: byte, data: Bytes)
    requires NoncesFit(lns)
    ensures NoncesFit(PushClassC(p, cfg, lns, d, fport, data).0)
  {
  }

  lemma {:induction false} ServerNoncesFit(w: World, joinNonce: nat, steps: seq<Step>)
    ensures NoncesFit(Network.Run(w, joinNonce, steps).lns)
  {
    if steps != [] {
      var s := Network.Run(w, joinNonce, steps[..|steps| - 1]);
      ServerNoncesFit(w, joinNonce, steps[..|steps| - 1]);
      match steps[|steps| - 1]
      case LnsRead =>
        if s.wsUp != [] && s.wsUp[0].JreqMsg? {
          HandleKeepsFit(w.p, w.cfg, s.lns, s.wsUp[0].jr);
        }
      case PushTo(d, fport, data) => PushKeepsFit(w.p, w.cfg, s.lns, d, fport, data);
      case _ =>
    }
  }

  /** What is left open when a join is announced: the tag may have been unregistered, and the server may have
      pushed already. */
  predicate Undisturbedly(s: State, d: string)
    requires d in s.tags && d in s.lns.sessions
  {
    s.tags[d].registered && InTransit(s, d) == [] && s.lns.sessions[d].fcntDown == 0
  }

  lemma AnnouncedTag(w: World, s: State, d: string)
    requires d in s.tags && d in w.provs && s.tags[d].phase.Saved?
    ensures Next(w, s, Here(d, Announce)) == s.(tags := s.tags[d := s.tags[d].(phase := Idle, clientJoined := true)])
  {
  }

  lemma SavedTagHolds(w: World, s: State, d: string, t: TagState)
    requires d in s.tags && KeysAgree(w, s, d) && Completed(s.tags[d])
    requires NoncesInOrder(s.tags[d]) && Quiet(s.tags[d]) && s.tags[d].phase.Saved?
    requires t == s.tags[d].(phase := Idle, clientJoined := true)
    ensures Holds(w, t, KeysFor(w, s.lns.sessions[d])) <==> t.registered
  {
  }

  lemma SavedTagBecomesReadyIff(w: World, s: State, d: string)
    requires d in s.tags && d in w.provs && GoodDevice(w, s, d) && NoncesFit(s.lns)
    requires NoncesInOrder(s.tags[d]) && Quiet(s.tags[d]) && s.tags[d].phase.Saved?
    ensures d in s.lns.sessions
    ensures Ready(w, Next(w, s, Here(d, Announce)), d) <==> Undisturbedly(s, d)
  {
    SavedTagHolds(w, s, d, s.tags[d].(phase := Idle, clientJoined := true));
    AnnouncedTag(w, s, d);
  }

  /** Whenever a join of a disciplined run is announced, everything else follows: the client's phase and flag, a
      readable session with fresh counters, the server's entry and its keys. So the tag is then ready for delivery if
      and only if it is registered, nothing is in transit to it and nothing has been pushed to it since the answer. */
  lemma AnnouncedTagIsReadyIff(w: World, joinNonce: nat, steps: seq<Step>, s: State, d: string)
    requires w.Valid() && d in w.provs && Disciplined(w, joinNonce, steps) && s == Network.Run(w, joinNonce, steps)
    requires d in s.tags && s.tags[d].phase.Saved?
    ensures d in s.lns.sessions
    ensures Ready(w, Next(w, s, Here(d, Announce)), d) <==> Undisturbedly(s, d)
  {
    DisciplinedRunsAreGood(w, joinNonce, steps);
    ServerNoncesFit(w, joinNonce, steps);
    TagsAreSound(w, joinNonce, steps, d);
    DisciplinedRunsAreQuiet(w, joinNonce, steps, d);
    SavedTagBecomesReadyIff(w, s, d);
  }

  // A run that gets there

  lemma PassesDown(w: World, s: State, d: string, h: string)
    requires d in s.tags && d in w.provs && s.tags[d].registered && s.tags[d].down == []
    requires |s.wsDown| == 1 && s.wsDown[0].devEui == d && s.wsDown[0].pdu == h
    ensures var s' := Next(w, s, GatewayDown(true));
      && d in s'.tags && s'.tags[d] == s.tags[d].(down := [h]) && s'.wsDown == [] && s'.lns == s.lns
  {
  }

  /** From the answered request to the saved session. */
  lemma TakesAnswer(w: World, s: State, d: string, pdu: Bytes) returns (saved: State, steps: seq<Step>)
    requires d in s.tags && d in w.provs && s.tags[d].registered && s.tags[d].down == []
    requires !s.tags[d].clientJoined && s.tags[d].joinCh.None? && s.tags[d].phase.Waiting?
    requires |s.wsDown| == 1 && s.wsDown[0].devEui == d && s.wsDown[0].pdu == Hex.Encode(pdu)
    requires JoinFrames.AcceptResult(w.p, w.provs[d], s.tags[d].phase.nonce, pdu).Ok?
    ensures steps == [GatewayDown(true), Here(d, TagRead), Here(d, TakeAccept), Here(d, SaveAccept)]
    ensures saved == Next(w, Next(w, Next(w, Next(w, s, steps[0]), steps[1]), steps[2]), steps[3])
    ensures saved.lns == s.lns && saved.wsDown == [] && d in saved.tags
    ensures saved.tags[d].phase.Saved? && saved.tags[d].registered && saved.tags[d].down == []
  {
    steps := [GatewayDown(true), Here(d, TagRead), Here(d, TakeAccept), Here(d, SaveAccept)];
    Hex.RoundTrip(pdu);
    PassesDown(w, s, d, Hex.Encode(pdu));
    var a := Next(w, s, GatewayDown(true));
    StaleJoins.ReadsInto(w, a, d, Hex.Encode(pdu), pdu);
    var b := Next(w, a, Here(d, TagRead));
    StaleJoins.TakesFromChannel(w, b, d, pdu);
    var c := Next(w, b, Here(d, TakeAccept));
    saved := Next(w, c, Here(d, SaveAccept));
    SavesAnswer(w, c, d);
  }

  lemma SavesAnswer(w: World, s: State, d: string)
    requires d in s.tags && d in w.provs && s.tags[d].phase.Holding?
    requires JoinFrames.AcceptResult(w.p, w.provs[d], s.tags[d].phase.nonce, s.tags[d].phase.pdu).Ok?
    ensures var s' := Next(w, s, Here(d, SaveAccept));
      && s'.lns == s.lns && s'.wsDown == s.wsDown && d in s'.tags
      && s'.tags[d].phase.Saved? && s'.tags[d].registered == s.tags[d].registered && s'.tags[d].down == s.tags[d].down
  {
  }

  lemma ReachFour(w: World, joinNonce: nat, s: State, a: Step, b: Step, c: Step, e: Step)
    requires DisciplinedReachable(w, joinNonce, s)
    requires forall step <- [a, b, c, e] :: !(step.Here? && step.act.BeginJoin?)
    ensures DisciplinedReachable(w, joinNonce, Next(w, Next(w, Next(w, Next(w, s, a), b), c), e))
  {
    assert a in [a, b, c, e] && b in [a, b, c, e] && c in [a, b, c, e] && e in [a, b, c, e];
    ReachDisciplined(w, joinNonce, s, a);
    ReachDisciplined(w, joinNonce, Next(w, s, a), b);
    ReachDisciplined(w, joinNonce, Next(w, Next(w, s, a), b), c);
    ReachDisciplined(w, joinNonce, Next(w, Next(w, Next(w, s, a), b), c), e);
  }

  lemma ReachReady(w: World, d: string, joinNonce: nat, saved: State) returns (s: State)
    requires w.Valid() && d in w.provs && DisciplinedReachable(w, joinNonce, saved)
    requires d in saved.tags && saved.tags[d].phase.Saved? && saved.tags[d].registered && saved.tags[d].down == []
    requires saved.wsDown == [] && d in saved.lns.sessions && saved.lns.sessions[d].fcntDown == 0
    ensures DisciplinedReachable(w, joinNonce, s) && Ready(w, s, d)
  {
    var steps :| Disciplined(w, joinNonce, steps) && saved == Network.Run(w, joinNonce, steps);
    AnnouncedTagIsReadyIff(w, joinNonce, steps, saved, d);
    assert InTransit(saved, d) == [];
    ReachDisciplined(w, joinNonce, saved, Here(d, Announce));
    s := Next(w, saved, Here(d, Announce));
  }

  /** From the start, one join with nothing else going on reaches a state in which the tag is ready. */
  lemma ReadyIsReached(w: World, d: string, joinNonce: nat) returns (s: State)
    requires w.Valid() && d in w.provs && joinNonce + 1 < TWO_TO_24
    requires JoinFrames.FitsAccept(AcceptOf(w.cfg, joinNonce + 1))
    ensures DisciplinedReachable(w, joinNonce, s) && Ready(w, s, d)
  {
    var s5 := ToFive(w, d, joinNonce);
    GoodAccept(w, d, joinNonce + 1, 1);
    var saved, four := TakesAnswer(w, s5, d, AcceptPdu(w, joinNonce + 1));
    ReachFour(w, joinNonce, s5, four[0], four[1], four[2], four[3]);
    s := ReachReady(w, d, joinNonce, saved);
  }
}
