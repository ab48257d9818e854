/** internal/gateway/gateway.go and rxwindow.go: the gateway's registry, and the downlinks it routes and confirms. */
module Gateways {
  import opened ByteStrings
  import opened MockLns
  import opened Queues
  import opened Wrappers
  import Bridge
  import GatewayServer
  import LnsRuns

  /** Tag connections are numbered. */
  type Conn = nat

  datatype Window = Rx1 | Rx2 | ClassC

  /** Envelopes a tag sends, and the one the gateway sends. */
  datatype FromTag =
    | Hello(devEui: string, devAddr: string)
    | Up(devEui: string, phy: string, freq: nat, dr: byte)
    | Other
  datatype Down = Down(devEui: string, phy: string, window: Window, freq: nat, dr: nat)

  datatype Dntxed = Dntxed(diid: nat, devEui: string, rctx: int, xtime: int)

  /** What left the gateway on behalf of downlinks, in order. */
  datatype Event = Wrote(c: Conn, env: Down) | Confirmed(tx: Dntxed)

  function ChooseRxWindow(dn: Dnmsg): (Window, nat, nat) {
    if dn.dc == 2 then (ClassC, dn.rx2Freq, dn.rx2Dr)
    else if dn.rx1Freq != 0 then (Rx1, dn.rx1Freq, dn.rx1Dr)
    else (Rx2, dn.rx2Freq, dn.rx2Dr)
  }

  function EnvelopeOf(dn: Dnmsg): Down {
    var rx := ChooseRxWindow(dn);
    Down(dn.devEui, dn.pdu, rx.0, rx.1, rx.2)
  }

  function TxOf(dn: Dnmsg): Dntxed {
    Dntxed(dn.diid, dn.devEui, dn.rctx, dn.xtime)
  }

  /** What one downlink adds to the log; `written` and `sent` say whether the tag's socket and the server's took
      the message. */
  function Routed(registry: map<string, Conn>, dn: Dnmsg, written: bool, sent: bool): seq<Event> {
    if dn.devEui !in registry || !written then []
    else [Wrote(registry[dn.devEui], EnvelopeOf(dn))] + if sent then [Confirmed(TxOf(dn))] else []
  }

  /** OnDnmsg reads the registry once, so a registry change during the rest of the call is as good as one after it. */
  class Gateway {
    var byDevEui: map<string, Conn>
    var devAddrToEui: map<string, string>
    var xtime: nat
    ghost var log: seq<Event>

    constructor ()
      ensures byDevEui == map[] && devAddrToEui == map[] && xtime == 0 && log == []
    {
      byDevEui, devAddrToEui, xtime, log := map[], map[], 0, [];
    }

    method ConnCount() returns (n: nat)
      ensures n == |byDevEui|
    {
      n := |byDevEui|;
    }

    method Lookup(devEui: string) returns (c: Option<Conn>)
      ensures c == if devEui in byDevEui then Some(byDevEui[devEui]) else None
    {
      c := if devEui in byDevEui then Some(byDevEui[devEui]) else None;
    }

    method Register(devEui: string, c: Conn)
      modifies this`byDevEui
      ensures byDevEui == old(byDevEui)[devEui := c]
    {
      byDevEui := byDevEui[devEui := c];
    }

    method Unregister(devEui: string)
      modifies this`byDevEui
      ensures byDevEui == old(byDevEui) - {devEui}
    {
      byDevEui := byDevEui - {devEui};
    }

    method BindDevAddr(devAddr: string, devEui: string)
      modifies this`devAddrToEui
      ensures devAddrToEui == old(devAddrToEui)[devAddr := devEui]
    {
      devAddrToEui := devAddrToEui[devAddr := devEui];
    }

    /** Every uplink takes a fresh xtime, forwarded or not. */
    method HandleUplink(env: FromTag) returns (r: Result<Bridge.ParsedUplink>)
      requires env.Up?
      modifies this`xtime, this`devAddrToEui
      ensures xtime == old(xtime) + 1
      ensures r == Bridge.ParseUplink(env.phy, env.freq, env.dr, Bridge.SynthUpInfo(0, xtime))
      ensures devAddrToEui ==
        if r.Ok? && r.value.DataUp? then old(devAddrToEui)[r.value.devAddr := env.devEui] else old(devAddrToEui)
    {
      xtime := xtime + 1;
      r := Bridge.ParseUplink(env.phy, env.freq, env.dr, Bridge.SynthUpInfo(0, xtime));
      if r.Ok? && r.value.DataUp? {
        assert |r.value.devAddr| == 8;
        BindDevAddr(r.value.devAddr, env.devEui);
      }
    }

    /** One turn of a connection's read loop; `devEui` is the identity the loop remembers for its deferred
        unregister. */
    method Turn(c: Conn, devEui: string, env: FromTag) returns (devEui': string, forwarded: Option<Bridge.ParsedUplink>)
      modifies this`byDevEui, this`devAddrToEui, this`xtime
      ensures devEui' == if env.Hello? then env.devEui else devEui
      ensures byDevEui == if env.Hello? then old(byDevEui)[env.devEui := c] else old(byDevEui)
      ensures xtime == if env.Up? then old(xtime) + 1 else old(xtime)
      ensures devAddrToEui ==
        if env.Hello? && env.devAddr != "" then old(devAddrToEui)[env.devAddr := env.devEui]
        else if env.Up? && forwarded.Some? && forwarded.value.DataUp? then
          old(devAddrToEui)[forwarded.value.devAddr := env.devEui]
        else old(devAddrToEui)
      ensures forwarded.Some? ==>
        env.Up? && Bridge.ParseUplink(env.phy, env.freq, env.dr, Bridge.SynthUpInfo(0, xtime)) == Ok(forwarded.value)
      ensures env.Up? && forwarded.None? ==>
        Bridge.ParseUplink(env.phy, env.freq, env.dr, Bridge.SynthUpInfo(0, xtime)).Err?
    {
      devEui', forwarded := devEui, None;
      match env
      case Hello(announced, devAddr) =>
        devEui' := announced;
        Register(announced, c);
        if devAddr != "" {
          BindDevAddr(devAddr, announced);
        }
      case Up(_, _, _, _) =>
        var r := HandleUplink(env);
        forwarded := if r.Ok? then Some(r.value) else None;
      case Other =>
    }

    /** Routes a downlink to the connection registered for its device, and confirms it only after the write went
        through. */
    method OnDnmsg(dn: Dnmsg, written: bool, sent: bool) returns (write: Option<(Conn, Down)>, confirm: Option<Dntxed>)
      modifies this`log
      ensures log == old(log) + Routed(byDevEui, dn, written, sent)
      ensures log == old(log) + (if write.Some? then [Wrote(write.value.0, write.value.1)] else [])
                              + (if confirm.Some? then [Confirmed(confirm.value)] else [])
    {
      write, confirm := None, None;
      var conn := Lookup(dn.devEui);
      if conn.None? || !written {
        return;
      }
      var rx := ChooseRxWindow(dn);
      var env := Down(dn.devEui, dn.pdu, rx.0, rx.1, rx.2);
      write := Some((conn.value, env));
      log := log + [Wrote(conn.value, env)];
      if !sent {
        return;
      }
      confirm := Some(Dntxed(dn.diid, dn.devEui, dn.rctx, dn.xtime));
      log := log + [Confirmed(confirm.value)];
    }
  }

  // Conservation, over every run

  datatype Op =
    | Register(devEui: string, c: Conn)
    | Unregister(devEui: string)
    | Deliver(dn: Dnmsg, written: bool, sent: bool)

  datatype State = State(registry: map<string, Conn>, log: seq<Event>)

  function Exec(s: State, op: Op): State {
    match op
    case Register(devEui, c) => s.(registry := s.registry[devEui := c])
    case Unregister(devEui) => s.(registry := s.registry - {devEui})
    case Deliver(dn, written, sent) => s.(log := s.log + Routed(s.registry, dn, written, sent))
  }

  function Run(ops: seq<Op>): State {
    if ops == [] then State(map[], []) else Exec(Run(ops[..|ops| - 1]), ops[|ops| - 1])
  }

  function Handled(ops: seq<Op>): seq<Dnmsg> {
    if ops == [] then []
    else
      var op := ops[|ops| - 1];
      Handled(ops[..|ops| - 1]) + if op.Deliver? then [op.dn] else []
  }

  /** The DIIDs confirmed to the network server, in order. */
  function ConfirmedDiids(log: seq<Event>): seq<nat> {
    if log == [] then []
    else
      var e := log[|log| - 1];
      ConfirmedDiids(log[..|log| - 1]) + if e.Confirmed? then [e.tx.diid] else []
  }

  lemma RoutedDiids(log: seq<Event>, registry: map<string, Conn>, dn: Dnmsg, written: bool, sent: bool)
    ensures var confirmed := dn.devEui in registry && written && sent;
      ConfirmedDiids(log + Routed(registry, dn, written, sent)) ==
        ConfirmedDiids(log) + if confirmed then [dn.diid] else []
  {
    if dn.devEui in registry && written {
      var w := [Wrote(registry[dn.devEui], EnvelopeOf(dn))];
      assert (log + w)[..|log|] == log;
      if sent {
        assert log + Routed(registry, dn, written, sent) == log + w + [Confirmed(TxOf(dn))];
        assert (log + w + [Confirmed(TxOf(dn))])[..|log| + 1] == log + w;
      } else {
        assert log + Routed(registry, dn, written, sent) == log + w;
      }
    } else {
      assert log + Routed(registry, dn, written, sent) == log;
    }
  }

  /** The confirmed DIIDs are the handled ones, in order, with some left out. */
  lemma {:induction false} ConfirmsAreASubsequence(ops: seq<Op>)
    ensures Subsequence(ConfirmedDiids(Run(ops).log), LnsRuns.Diids(Handled(ops)))
  {
    if ops != [] {
      var before, op := ops[..|ops| - 1], ops[|ops| - 1];
      ConfirmsAreASubsequence(before);
      if op.Deliver? {
        var log, handled := Run(before).log, LnsRuns.Diids(Handled(before));
        RoutedDiids(log, Run(before).registry, op.dn, op.written, op.sent);
        SubsequenceGrows(ConfirmedDiids(log), handled, op.dn.diid);
        assert LnsRuns.Diids(Handled(ops)) == handled + [op.dn.diid];
        assert ConfirmedDiids(log) + [] == ConfirmedDiids(log);
      } else {
        assert Handled(ops) == Handled(before);
      }
    }
  }

  /** Entry `k` of the log confirms the downlink handled by step `i`, which wrote it once, unchanged, to the
      connection then registered. */
  ghost predicate DeliveredBy(ops: seq<Op>, k: nat, i: nat) {
    && i < |ops| && ops[i].Deliver?
    && var before, dn := Run(ops[..i]), ops[i].dn;
    && dn.devEui in before.registry && k == |before.log| + 1
    && Run(ops[..i + 1]).log == before.log + [Wrote(before.registry[dn.devEui], EnvelopeOf(dn)), Confirmed(TxOf(dn))]
  }

  lemma {:induction false} LogGrows(ops: seq<Op>, i: nat)
    requires i <= |ops|
    ensures Run(ops[..i]).log <= Run(ops).log
  {
    if i == |ops| {
      assert ops[..i] == ops;
    } else {
      assert ops[..|ops| - 1][..i] == ops[..i];
      LogGrows(ops[..|ops| - 1], i);
    }
  }

  /** Each confirmation has exactly one write, made just before it: by the step that handled that downlink,
      carrying its pdu to the connection registered for its device at that moment. */
  lemma {:induction false} ConfirmedWasWrittenOnce(ops: seq<Op>, k: nat)
    requires k < |Run(ops).log| && Run(ops).log[k].Confirmed?
    ensures exists i: nat :: DeliveredBy(ops, k, i)
    ensures forall i: nat :: DeliveredBy(ops, k, i) ==>
      && Run(ops).log[k] == Confirmed(TxOf(ops[i].dn))
      && Run(ops).log[k - 1].Wrote? && Run(ops).log[k - 1].env.phy == ops[i].dn.pdu
      && Run(ops).log[k - 1].c == Run(ops[..i]).registry[ops[i].dn.devEui]
  {
    var before, op := ops[..|ops| - 1], ops[|ops| - 1];
    if k < |Run(before).log| {
      ConfirmedWasWrittenOnce(before, k);
      var i: nat :| DeliveredBy(before, k, i);
      assert before[..i] == ops[..i] && before[..i + 1] == ops[..i + 1];
      assert DeliveredBy(ops, k, i);
    } else {
      assert ops[..|ops|] == ops;
      assert Run(ops).log[k] == Routed(Run(before).registry, op.dn, op.written, op.sent)[k - |Run(before).log|];
      assert DeliveredBy(ops, k, |ops| - 1);
    }
    forall i: nat | DeliveredBy(ops, k, i)
      ensures Run(ops).log[k] == Confirmed(TxOf(ops[i].dn))
      ensures Run(ops).log[k - 1] == Wrote(Run(ops[..i]).registry[ops[i].dn.devEui], EnvelopeOf(ops[i].dn))
    {
      LogGrows(ops, i + 1);
    }
  }

  /** Two confirmations never come from the same step. */
  lemma ConfirmsHaveTheirOwnStep(ops: seq<Op>, k: nat, l: nat, i: nat, j: nat)
    requires DeliveredBy(ops, k, i) && DeliveredBy(ops, l, j)
    ensures k < l <==> i < j
  {
    if i < j {
      assert ops[..j][..i + 1] == ops[..i + 1];
      LogGrows(ops[..j], i + 1);
    } else if j < i {
      assert ops[..i][..j + 1] == ops[..j + 1];
      LogGrows(ops[..i], j + 1);
    }
  }

  /** Fed by the mock server, which serves this gateway among others, however its goroutines interleave: what the
      gateway handled is part of what the server wrote, in order, and every DIID is confirmed at most once. */
  lemma ConfirmedAtMostOnce(lib: LnsRuns.Library, cfg: Config, start: nat, lnsSteps: seq<LnsRuns.Step>, ops: seq<Op>)
    requires Subsequence(LnsRuns.Diids(Handled(ops)), LnsRuns.Diids(LnsRuns.Run(lib, cfg, start, lnsSteps).sent))
    ensures Distinct(ConfirmedDiids(Run(ops).log))
  {
    LnsRuns.DiidsDistinct(lib, cfg, start, lnsSteps);
    SubsequenceDistinct(LnsRuns.Diids(Handled(ops)), LnsRuns.Diids(LnsRuns.Run(lib, cfg, start, lnsSteps).sent));
    ConfirmsAreASubsequence(ops);
    SubsequenceDistinct(ConfirmedDiids(Run(ops).log), LnsRuns.Diids(Handled(ops)));
  }

  /** They are confirmed in increasing order exactly when no confirmed DIID overtook another at the server. */
  lemma ConfirmedInOrderIff(lib: LnsRuns.Library, cfg: Config, start: nat, lnsSteps: seq<LnsRuns.Step>, ops: seq<Op>)
    requires Subsequence(LnsRuns.Diids(Handled(ops)), LnsRuns.Diids(LnsRuns.Run(lib, cfg, start, lnsSteps).sent))
    ensures var confirmed := ConfirmedDiids(Run(ops).log);
      Increasing(confirmed) <==>
        forall i: nat, j: nat, d: nat, e: nat :: LnsRuns.Overtakes(lib, cfg, start, lnsSteps, i, j, d, e) ==>
          d !in confirmed || e !in confirmed
  {
    var sent, handled := LnsRuns.Diids(LnsRuns.Run(lib, cfg, start, lnsSteps).sent), LnsRuns.Diids(Handled(ops));
    var confirmed := ConfirmedDiids(Run(ops).log);
    ConfirmedAtMostOnce(lib, cfg, start, lnsSteps, ops);
    LnsRuns.DiidsDistinct(lib, cfg, start, lnsSteps);
    SubsequenceDistinct(handled, sent);
    ConfirmsAreASubsequence(ops);
    SubsequenceElements(confirmed, handled);
    SubsequenceElements(handled, sent);
    IncreasingBefore(confirmed);
    forall d: nat, e: nat
      ensures Before(confirmed, d, e) <==> Before(sent, d, e) && d in confirmed && e in confirmed
    {
      SubsequenceBefore(confirmed, handled, d, e);
      SubsequenceBefore(handled, sent, d, e);
    }
    forall d: nat, e: nat ensures Before(sent, d, e) && e < d <==>
      exists i: nat, j: nat :: LnsRuns.Overtakes(lib, cfg, start, lnsSteps, i, j, d, e)
    {
      if e < d {
        LnsRuns.SentLaterIff(lib, cfg, start, lnsSteps, d, e);
      }
    }
    if Increasing(confirmed) {
      forall i: nat, j: nat, d: nat, e: nat | LnsRuns.Overtakes(lib, cfg, start, lnsSteps, i, j, d, e)
        ensures d !in confirmed || e !in confirmed
      {
        assert Before(confirmed, d, e) ==> d < e;
      }
    } else {
      var d: nat, e: nat :| Before(confirmed, d, e) && !(d < e);
      var i: nat, j: nat :| LnsRuns.Overtakes(lib, cfg, start, lnsSteps, i, j, d, e);
    }
  }

  /** So they are if the server takes and writes DIIDs one after the other. */
  lemma ConfirmedInOrder(lib: LnsRuns.Library, cfg: Config, start: nat, lnsSteps: seq<LnsRuns.Step>, ops: seq<Op>)
    requires Subsequence(LnsRuns.Diids(Handled(ops)), LnsRuns.Diids(LnsRuns.Run(lib, cfg, start, lnsSteps).sent))
    requires LnsRuns.SerialisedRun(lib, cfg, start, lnsSteps)
    ensures Increasing(ConfirmedDiids(Run(ops).log))
  {
    LnsRuns.DiidsIncrease(lib, cfg, start, lnsSteps);
    LnsRuns.IncreasingIffNoOvertaking(lib, cfg, start, lnsSteps);
    ConfirmedInOrderIff(lib, cfg, start, lnsSteps, ops);
  }

  // Together with the server that registers the connections

  /** The registry operation of one step of the server: a hello registers, a connection that leaves unregisters
      the DevEUI it announced last. */
  function Registration(s: GatewayServer.State, step: GatewayServer.Step): Option<Op> {
    if !GatewayServer.Enabled(s, step) then None
    else if step.Hello? then Some(Register(step.devEui, step.c))
    else if step.Leave? && GatewayServer.Announced(s, step.c) != "" then
      Some(Unregister(GatewayServer.Announced(s, step.c)))
    else None
  }

  function Registrations(steps: seq<GatewayServer.Step>): seq<Op> {
    if steps == [] then []
    else
      var before, op := steps[..|steps| - 1], Registration(GatewayServer.Run(steps[..|steps| - 1]), steps[|steps| - 1]);
      if op.Some? then Registrations(before) + [op.value] else Registrations(before)
  }

  function OnlyRegistry(ops: seq<Op>): seq<Op> {
    if ops == [] then []
    else OnlyRegistry(ops[..|ops| - 1]) + if ops[|ops| - 1].Deliver? then [] else [ops[|ops| - 1]]
  }

  lemma RunAppend(ops: seq<Op>, op: Op)
    ensures Run(ops + [op]) == Exec(Run(ops), op)
  {
    assert (ops + [op])[..|ops|] == ops;
  }

  lemma {:induction false} DeliveriesKeepRegistry(ops: seq<Op>)
    ensures Run(ops).registry == Run(OnlyRegistry(ops)).registry
  {
    if ops != [] {
      var before, op := ops[..|ops| - 1], ops[|ops| - 1];
      DeliveriesKeepRegistry(before);
      if op.Deliver? {
        assert OnlyRegistry(ops) == OnlyRegistry(before);
      } else {
        RunAppend(OnlyRegistry(before), op);
      }
    }
  }

  lemma RegistrationActs(s: GatewayServer.State, step: GatewayServer.Step, log: seq<Event>)
    requires GatewayServer.Enabled(s, step)
    ensures var op := Registration(s, step);
      GatewayServer.Next(s, step).byDevEui ==
        if op.Some? then Exec(State(s.byDevEui, log), op.value).registry else s.byDevEui
  {
  }

  lemma {:induction false} SameRegistry(steps: seq<GatewayServer.Step>)
    ensures Run(Registrations(steps)).registry == GatewayServer.Run(steps).byDevEui
  {
    if steps != [] {
      var before, step := steps[..|steps| - 1], steps[|steps| - 1];
      var s, earlier := GatewayServer.Run(before), Registrations(before);
      SameRegistry(before);
      if GatewayServer.Enabled(s, step) {
        RegistrationActs(s, step, Run(earlier).log);
        if Registration(s, step).Some? {
          RunAppend(earlier, Registration(s, step).value);
        }
      }
    }
  }

  /** The registry that downlinks are routed by is the server's. If connections announce one DevEUI each, every
      downlink is therefore routed to a connection that is being served and has announced its device. */
  lemma RoutedToServedConnections(steps: seq<GatewayServer.Step>, ops: seq<Op>, dn: Dnmsg)
    requires OnlyRegistry(ops) == Registrations(steps) && GatewayServer.OneIdentityRun(steps)
    ensures Run(ops).registry == GatewayServer.Run(steps).byDevEui
    ensures dn.devEui in Run(ops).registry ==>
      var s, c := GatewayServer.Run(steps), Run(ops).registry[dn.devEui];
      GatewayServer.At(s, c, GatewayServer.Serving) && GatewayServer.Announced(s, c) == dn.devEui
  {
    DeliveriesKeepRegistry(ops);
    SameRegistry(steps);
    GatewayServer.RegistryIsSound(steps);
  }
}
