/** Tags, gateway and network server joined by FIFO links: one transition system for any number of devices
    (internal/tag/client.go, internal/gateway/gateway.go, internal/mocklns/mocklns.go). */
module Network {
  import opened ByteStrings
  import opened Crypto
  import opened MockLns
  import opened Sessions
  import opened Wrappers
  import Bridge
  import DataFrames
  import Hex
  import JoinFrames

  /** The devices are named by the hex of their DevEUI and all hold the server's AppKey. */
  datatype World = World(p: Primitives, cfg: Config, provs: map<string, JoinFrames.Provisioning>)
  {
    ghost predicate Valid() {
      p.Lawful() && forall d <- provs :: d == Hex.Encode(provs[d].devEui) && provs[d].appKey == cfg.appKey
    }
  }

  /** Messages on a tag's TCP link. */
  datatype UpMsg = Hello | Up(phy: string)

  /** Messages from the gateway to the network server. */
  datatype WsUp = JreqMsg(jr: Bridge.Jreq) | UpdfMsg(u: Bridge.Updf) | DntxedMsg(diid: nat)

  /** Where a tag's Join call stands: `Holding` has received from joinCh, `Saved` has persisted but not yet set
      the joined flag. */
  datatype Phase = Idle | Waiting(nonce: nat) | Holding(nonce: nat, pdu: Bytes) | Saved

  /** `sentNonce` and `sessNonce` are history: the DevNonce of the latest join-request sent, and the one the
      stored session came from. `received` lists the downlinks handed to the application. */
  datatype TagState = TagState(
    sess: Session, clientJoined: bool, joinCh: Option<Bytes>, phase: Phase,
    up: seq<UpMsg>, down: seq<string>, registered: bool,
    sentNonce: nat, sessNonce: nat, received: seq<DataFrames.Downlink>)

  datatype State = State(tags: map<string, TagState>, wsUp: seq<WsUp>, wsDown: seq<Dnmsg>, lns: Lns)

  /** `Here` steps act inside one tag; the others move messages. */
  datatype Step =
    | Here(d: string, act: Act)
    | GatewayUp(d: string, xtime: int)
    | LnsRead
    | GatewayDown(delivered: bool)
    | PushTo(d: string, fport: byte, data: Bytes)

  datatype Act =
    | Connect(kept: nat)                       // a new connection; the gateway still reads so much of the old
    | Unregister                               // the gateway forgets the tag's connection
    | BeginJoin
    | TakeAccept                               // Join receives from joinCh
    | SaveAccept                               // CompleteJoin
    | Announce                                 // joined.Store(true)
    | TimeOut                                  // Join gives up
    | SendUplink(fport: byte, data: Bytes)
    | TagRead                                  // one turn of Run

  const NEW_TAG := TagState(NEW_SESSION, false, None, Idle, [], [], false, 0, 0, [])

  function Initial(w: World, joinNonce: nat): State {
    State(map d | d in w.provs :: NEW_TAG, [], [], Lns(joinNonce, 0, map[]))
  }

  function StartJoin(p: Primitives, prov: JoinFrames.Provisioning, t: TagState): TagState {
    var sess := AfterNonce(t.sess);
    if sess.devNonce < TWO_TO_16 then
      t.(sess := sess, phase := Waiting(sess.devNonce), sentNonce := sess.devNonce,
         up := t.up + [Up(Hex.Encode(JoinFrames.JoinRequestFrame(p, prov, sess.devNonce)))])
    else t.(sess := sess)
  }

  function FinishJoin(p: Primitives, prov: JoinFrames.Provisioning, t: TagState): TagState
    requires t.phase.Holding?
  {
    match JoinFrames.AcceptResult(p, prov, t.phase.nonce, t.phase.pdu)
    case Err(_) => t.(phase := Idle)
    case Ok(r) => t.(phase := Saved, sess := AfterJoin(t.sess, JoinStateOf(r)), sessNonce := t.phase.nonce)
  }

  function UplinkMsg(p: Primitives, sess: Session, fport: byte, data: Bytes): Option<UpMsg> {
    match (ParseDevAddr(sess.devAddr), ParseKey(sess.nwkSKey), ParseKey(sess.appSKey))
    case (Some(devAddr), Some(nwk), Some(app)) =>
      var u := DataFrames.UplinkParams(devAddr, nwk, app, sess.fcntUp, fport, data, false, false, false);
      Some(Up(Hex.Encode(DataFrames.UplinkFrame(p, u))))
    case _ => None
  }

  function Transmit(p: Primitives, t: TagState, fport: byte, data: Bytes): TagState {
    var m := UplinkMsg(p, t.sess, fport, data);
    t.(sess := AfterTake(t.sess), up := if m.Some? then t.up + [m.value] else t.up)
  }

  /** Before the joined flag is set a downlink goes to joinCh, if there is room; afterwards it is handled as data. */
  function Receive(p: Primitives, t: TagState, pdu: Bytes): TagState {
    if !t.clientJoined then (if t.joinCh.None? then t.(joinCh := Some(pdu)) else t)
    else
      match Taken(p, t.sess, pdu)
      case None => t
      case Some(dl) => t.(sess := AfterDown(t.sess, dl.fcnt), received := t.received + [dl])
  }

  /** One turn of Run: an envelope whose payload is not hex is skipped. */
  function ReadLink(p: Primitives, t: TagState): TagState
    requires t.down != []
  {
    var t' := t.(down := t.down[1..]);
    match Hex.Decode(t.down[0])
    case None => t'
    case Some(pdu) => Receive(p, t', pdu)
  }

  function Local(p: Primitives, prov: JoinFrames.Provisioning, t: TagState, act: Act): TagState {
    match act
    case Connect(kept) =>
      var rest := if kept < |t.up| then t.up[..kept] else t.up;
      t.(clientJoined := false, joinCh := None, phase := Idle, up := rest + [Hello], down := [], registered := false)
    case Unregister => t.(registered := false)
    case BeginJoin => if t.phase.Idle? then StartJoin(p, prov, t) else t
    case TakeAccept =>
      if t.phase.Waiting? && t.joinCh.Some? then
        t.(phase := Holding(t.phase.nonce, t.joinCh.value), joinCh := None)
      else t
    case SaveAccept => if t.phase.Holding? then FinishJoin(p, prov, t) else t
    case Announce => if t.phase.Saved? then t.(phase := Idle, clientJoined := true) else t
    case TimeOut => if t.phase.Waiting? then t.(phase := Idle) else t
    case SendUplink(fport, data) =>
      if t.clientJoined && Readable(t.sess) && t.sess.joined then Transmit(p, t, fport, data) else t
    case TagRead => if t.down == [] then t else ReadLink(p, t)
  }

  /** What the gateway sends on for one uplink envelope. */
  function Forwarded(phy: string, xtime: int): seq<WsUp> {
    match Bridge.ParseUplink(phy, 868100000, 0, Bridge.SynthUpInfo(0, xtime))
    case Ok(Join(jr, _)) => [JreqMsg(jr)]
    case Ok(DataUp(u, _)) => [UpdfMsg(u)]
    case Err(_) => []
  }

  function ReadEnvelope(s: State, d: string, xtime: int): State
    requires d in s.tags && s.tags[d].up != []
  {
    var t := s.tags[d].(up := s.tags[d].up[1..]);
    match s.tags[d].up[0]
    case Hello => s.(tags := s.tags[d := t.(registered := true)])
    case Up(phy) => s.(tags := s.tags[d := t], wsUp := s.wsUp + Forwarded(phy, xtime))
  }

  function Serve(w: World, s: State): State
    requires s.wsUp != []
  {
    var s' := s.(wsUp := s.wsUp[1..]);
    match s.wsUp[0]
    case JreqMsg(jr) =>
      var (lns, reply) := HandleJreq(w.p, w.cfg, s.lns, jr);
      s'.(lns := lns, wsDown := if reply.Some? then s.wsDown + [reply.value] else s.wsDown)
    case _ => s'
  }

  function Route(s: State, delivered: bool): State
    requires s.wsDown != []
  {
    var m, s' := s.wsDown[0], s.(wsDown := s.wsDown[1..]);
    if m.devEui in s.tags && s.tags[m.devEui].registered && delivered then
      var t := s.tags[m.devEui];
      s'.(tags := s.tags[m.devEui := t.(down := t.down + [m.pdu])], wsUp := s.wsUp + [DntxedMsg(m.diid)])
    else s'
  }

  /** The effect of one step; a step that is not possible changes nothing. */
  function Next(w: World, s: State, step: Step): State {
    match step
    case Here(d, act) =>
      if d in s.tags && d in w.provs then s.(tags := s.tags[d := Local(w.p, w.provs[d], s.tags[d], act)]) else s
    case GatewayUp(d, xtime) => if d in s.tags && s.tags[d].up != [] then ReadEnvelope(s, d, xtime) else s
    case LnsRead => if s.wsUp != [] then Serve(w, s) else s
    case GatewayDown(delivered) => if s.wsDown != [] then Route(s, delivered) else s
    case PushTo(d, fport, data) =>
      var (lns, m) := PushClassC(w.p, w.cfg, s.lns, d, fport, data);
      s.(lns := lns, wsDown := if m.Some? then s.wsDown + [m.value] else s.wsDown)
  }

  function Run(w: World, joinNonce: nat, steps: seq<Step>): State {
    if steps == [] then Initial(w, joinNonce)
    else Next(w, Run(w, joinNonce, steps[..|steps| - 1]), steps[|steps| - 1])
  }
}
