/** internal/mocklns/mocklns.go: the emulated network server's join and Class C state. */
module MockLns {
  import opened ByteStrings
  import opened Crypto
  import opened Wrappers
  import Bridge
  import DataFrames
  import Hex
  import JoinFrames
  import Keys
  import Wire

  datatype Config = Config(
    netId: Keys.NetId, appKey: Key, devAddr: Wire.DevAddr, rx2Dr: nat, rx2Freq: nat, rxDelay: nat)

  type Uint32 = n: nat | n < TWO_TO_32

  /** What was issued to a device, and the next Class C counter. */
  datatype JoinInfo = JoinInfo(joinNonce: nat, devNonce: nat, fcntDown: Uint32)

  datatype Dnmsg = Dnmsg(
    devEui: string, dc: nat, diid: nat, pdu: string, rxDelay: nat, rx1Dr: nat, rx1Freq: nat, rx2Dr: nat, rx2Freq: nat,
    xtime: int, rctx: int)

  datatype Lns = Lns(joinNonce: nat, diid: nat, sessions: map<string, JoinInfo>)

  function ParseEui64(s: string): Option<Wire.Eui64> {
    match Hex.Decode(s)
    case Some(b) => if |b| == 8 then Some(b) else None
    case None => None
  }

  function AcceptOf(cfg: Config, joinNonce: nat): JoinFrames.Accept {
    JoinFrames.Accept(joinNonce, cfg.netId, cfg.devAddr, 0, cfg.rx2Dr, cfg.rxDelay % 256)
  }

  /** The counters are uint32: the successor of the largest is zero. */
  function Successor(n: nat): Uint32 {
    if n + 1 < TWO_TO_32 then n + 1 else 0
  }

  function Predecessor(n: Uint32): Uint32 {
    if n == 0 then TWO_TO_32 - 1 else n - 1
  }

  function JoinReply(p: Primitives, cfg: Config, jr: Bridge.Jreq, joinNonce: nat, diid: nat): Dnmsg
    requires JoinFrames.FitsAccept(AcceptOf(cfg, joinNonce))
  {
    Dnmsg(jr.devEui, 0, diid, Hex.Encode(JoinFrames.JoinAcceptFrame(p, cfg.appKey, AcceptOf(cfg, joinNonce))),
          cfg.rxDelay, jr.dr, jr.freq, cfg.rx2Dr, cfg.rx2Freq, jr.info.xtime, jr.info.rctx)
  }

  /** A join-request always uses up a join nonce; it is answered when the accept can be built. This and PushClassC
      are the two calls undisturbed by each other; LnsRuns interleaves their steps. */
  function HandleJreq(p: Primitives, cfg: Config, s: Lns, jr: Bridge.Jreq): (Lns, Option<Dnmsg>) {
    var n := Successor(s.joinNonce);
    if ParseEui64(jr.joinEui).None? || !JoinFrames.FitsAccept(AcceptOf(cfg, n)) then (s.(joinNonce := n), None)
    else
      var info := JoinInfo(n, jr.devNonce, 0);
      (Lns(n, s.diid + 1, s.sessions[jr.devEui := info]), Some(JoinReply(p, cfg, jr, n, s.diid + 1)))
  }

  /** The push with the counter of `info`. */
  function Push(p: Primitives, cfg: Config, info: JoinInfo, devEui: string, fport: byte, data: Bytes,
      diid: nat): Dnmsg {
    var keys := Keys.KeysOf(p, cfg.appKey, cfg.netId, info.joinNonce, info.devNonce);
    var frame := DataFrames.DownlinkFrame(p, keys.nwk, keys.app, cfg.devAddr, info.fcntDown, fport, data);
    Dnmsg(devEui, 2, diid, Hex.Encode(frame), 0, 0, 0, cfg.rx2Dr, cfg.rx2Freq, 0, 0)
  }

  /** The counter of a device that has joined is stepped on, modulo 2^32. */
  function Bumped(s: Lns, devEui: string): Lns {
    if devEui !in s.sessions then s
    else
      var info := s.sessions[devEui];
      s.(sessions := s.sessions[devEui := info.(fcntDown := Successor(info.fcntDown))])
  }

  /** A Class C push steps the counter on and sends with the one before. */
  function PushClassC(
    p: Primitives, cfg: Config, s: Lns, devEui: string, fport: byte, data: Bytes): (Lns, Option<Dnmsg>)
  {
    var s' := Bumped(s, devEui);
    if devEui !in s.sessions || s.sessions[devEui].joinNonce >= TWO_TO_24 then (s', None)
    else (s'.(diid := s.diid + 1), Some(Push(p, cfg, s.sessions[devEui], devEui, fport, data, s.diid + 1)))
  }

  /** The server object; replies and pushes are returned to the caller, which writes them to the gateway connection.
      `gateway` is the most recent gateway connection. */
  class Server {
    const p: Primitives
    const cfg: Config
    var joinNonce: nat
    var diid: nat
    var sessions: map<string, JoinInfo>
    var updfs: seq<Bridge.Updf>
    var gateway: Option<nat>

    function State(): Lns
      reads this
    {
      Lns(joinNonce, diid, sessions)
    }

    constructor (p: Primitives, cfg: Config, joinNonce: nat)
      ensures this.p == p && this.cfg == cfg && State() == Lns(joinNonce, 0, map[]) && updfs == [] && gateway == None
    {
      this.p, this.cfg, this.joinNonce := p, cfg, joinNonce;
      diid, sessions, updfs, gateway := 0, map[], [], None;
    }

    /** A gateway connects; pushes go to the latest one, also after it has gone. */
    method Accept(conn: nat)
      modifies this`gateway
      ensures gateway == Some(conn)
    {
      gateway := Some(conn);
    }

    method OnUpdf(u: Bridge.Updf)
      modifies this`updfs
      ensures updfs == old(updfs) + [u]
    {
      updfs := updfs + [u];
    }

    method BuildJoinAccept(jr: Bridge.Jreq, nonce: nat) returns (accept: Option<Bytes>)
      ensures accept.Some? <==> ParseEui64(jr.joinEui).Some? && JoinFrames.FitsAccept(AcceptOf(cfg, nonce))
      ensures accept.Some? ==> accept.value == JoinFrames.JoinAcceptFrame(p, cfg.appKey, AcceptOf(cfg, nonce))
    {
      var joinEui := ParseEui64(jr.joinEui);
      var fields := AcceptOf(cfg, nonce);
      if joinEui.None? || !JoinFrames.FitsAccept(fields) {
        return None;
      }
      accept := Some(JoinFrames.JoinAcceptFrame(p, cfg.appKey, fields));
    }

    /** A request that cannot be answered ends the serving of its gateway connection. */
    method OnJreq(jr: Bridge.Jreq) returns (reply: Option<Dnmsg>, serving: bool)
      modifies this`joinNonce, this`diid, this`sessions
      ensures (State(), reply) == HandleJreq(p, cfg, old(State()), jr)
      ensures serving <==> reply.Some?
    {
      joinNonce := Successor(joinNonce);
      var accept := BuildJoinAccept(jr, joinNonce);
      if accept.None? {
        return None, false;
      }
      var info := JoinInfo(joinNonce, jr.devNonce, 0);
      sessions := sessions[jr.devEui := info];
      diid := diid + 1;
      reply := Some(Dnmsg(jr.devEui, 0, diid, Hex.Encode(accept.value), cfg.rxDelay, jr.dr, jr.freq,
                          cfg.rx2Dr, cfg.rx2Freq, jr.info.xtime, jr.info.rctx));
      serving := true;
    }

    /** The counter is taken before it is known whether there is a gateway to send to. */
    method PushDownlink(devEui: string, fport: byte, data: Bytes) returns (push: Result<Dnmsg>)
      modifies this`diid, this`sessions
      ensures gateway.None? ==> State() == Bumped(old(State()), devEui) && push == Err("no gateway connected")
      ensures gateway.Some? ==> State() == PushClassC(p, cfg, old(State()), devEui, fport, data).0
      ensures gateway.Some? ==>
        (match PushClassC(p, cfg, old(State()), devEui, fport, data).1
         case Some(m) => push == Ok(m)
         case None => push.Err?)
    {
      var known := devEui in sessions;
      if known {
        sessions := sessions[devEui := sessions[devEui].(fcntDown := Successor(sessions[devEui].fcntDown))];
      }
      if gateway.None? {
        return Err("no gateway connected");
      }
      if !known {
        return Err("device has not joined");
      }
      var info := sessions[devEui];
      var nwk := Keys.DeriveNwkSKey(p, cfg.appKey, cfg.netId, info.joinNonce, info.devNonce);
      var app := Keys.DeriveAppSKey(p, cfg.appKey, cfg.netId, info.joinNonce, info.devNonce);
      if nwk.Err? || app.Err? {
        return Err("marshal joinNonce");
      }
      ghost var keys := Keys.KeysOf(p, cfg.appKey, cfg.netId, info.joinNonce, info.devNonce);
      assert nwk.value == keys.nwk && app.value == keys.app;
      var fcnt := Predecessor(info.fcntDown);
      var frame := DataFrames.BuildDataDownlink(p, nwk.value, app.value, cfg.devAddr, fcnt, fport, data);
      diid := diid + 1;
      push := Ok(Dnmsg(devEui, 2, diid, Hex.Encode(frame), 0, 0, 0, cfg.rx2Dr, cfg.rx2Freq, 0, 0));
    }
  }
}
