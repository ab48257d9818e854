/** Concrete joins: runs in which one tag connects, sends a join-request and has it answered. */
module JoinRuns {
  import opened ByteStrings
  import opened KeyAgreement
  import opened MockLns
  import opened Network
  import opened Sessions
  import Bridge
  import Hex
  import JoinFrames

  ghost predicate Reachable(w: World, joinNonce: nat, s: State) {
    exists steps :: s == Network.Run(w, joinNonce, steps)
  }

  lemma Reach(w: World, joinNonce: nat, s: State, step: Step)
    requires Reachable(w, joinNonce, s)
    ensures Reachable(w, joinNonce, Next(w, s, step))
  {
    var steps :| s == Network.Run(w, joinNonce, steps);
    assert (steps + [step])[..|steps|] == steps;
    assert Next(w, s, step) == Network.Run(w, joinNonce, steps + [step]);
  }

  lemma ReachTwo(w: World, joinNonce: nat, s: State, a: Step, b: Step)
    requires Reachable(w, joinNonce, s)
    ensures Reachable(w, joinNonce, Next(w, Next(w, s, a), b))
  {
    Reach(w, joinNonce, s, a);
    Reach(w, joinNonce, Next(w, s, a), b);
  }

  /** Reached by a run with one join per device at a time. */
  ghost predicate DisciplinedReachable(w: World, joinNonce: nat, s: State) {
    exists steps :: Disciplined(w, joinNonce, steps) && s == Network.Run(w, joinNonce, steps)
  }

  lemma ReachDisciplined(w: World, joinNonce: nat, s: State, step: Step)
    requires DisciplinedReachable(w, joinNonce, s) && OneJoinAtATime(s, step)
    ensures DisciplinedReachable(w, joinNonce, Next(w, s, step))
  {
    var steps :| Disciplined(w, joinNonce, steps) && s == Network.Run(w, joinNonce, steps);
    assert (steps + [step])[..|steps|] == steps;
    assert Disciplined(w, joinNonce, steps + [step]);
    assert Next(w, s, step) == Network.Run(w, joinNonce, steps + [step]);
  }

  /** The server answers the request at the head of its queue. */
  lemma Answer(w: World, s: State, d: string, n: nat)
    requires d in w.provs && n == Successor(s.lns.joinNonce) && JoinFrames.FitsAccept(AcceptOf(w.cfg, n))
    requires s.wsUp != [] && JreqFor(d)(s.wsUp[0]) && ParseEui64(s.wsUp[0].jr.joinEui).Some?
    ensures var s' := Next(w, s, LnsRead);
      && s'.tags == s.tags && s'.wsUp == s.wsUp[1..]
      && s'.lns.joinNonce == n && d in s'.lns.sessions && s'.lns.sessions[d] == JoinInfo(n, s.wsUp[0].jr.devNonce, 0)
      && |s'.wsDown| == |s.wsDown| + 1 && s'.wsDown[|s.wsDown|].devEui == d
      && s'.wsDown[|s.wsDown|].pdu == Hex.Encode(AcceptPdu(w, n))
  {
  }

  lemma RequestArrives(w: World, d: string, nonce: nat, xtime: int)
    requires w.Valid() && d in w.provs && nonce < TWO_TO_16
    ensures var phy := Hex.Encode(JoinFrames.JoinRequestFrame(w.p, w.provs[d], nonce));
      && |Forwarded(phy, xtime)| == 1 && JreqFor(d)(Forwarded(phy, xtime)[0])
      && Forwarded(phy, xtime)[0].jr.devNonce == nonce && ParseEui64(Forwarded(phy, xtime)[0].jr.joinEui).Some?
  {
    RequestFrame(w, d, nonce, xtime);
    Bridge.ForwardsJoinRequest(w.p, w.provs[d], nonce, 868100000, 0, Bridge.SynthUpInfo(0, xtime));
    Hex.RoundTrip(w.provs[d].joinEui);
  }

  function Request(w: World, d: string, nonce: nat): string
    requires d in w.provs
  {
    Hex.Encode(JoinFrames.JoinRequestFrame(w.p, w.provs[d], nonce))
  }

  function AcceptPdu(w: World, joinNonce: nat): Bytes
    requires JoinFrames.FitsAccept(AcceptOf(w.cfg, joinNonce))
  {
    JoinFrames.JoinAcceptFrame(w.p, w.cfg.appKey, AcceptOf(w.cfg, joinNonce))
  }

  /** BeginJoin puts the request behind whatever the link holds. */
  lemma Begin(w: World, s: State, d: string)
    requires d in s.tags && d in w.provs && s.tags[d].phase.Idle? && s.tags[d].sess.devNonce + 1 < TWO_TO_16
    ensures var t, s' := s.tags[d], Next(w, s, Here(d, BeginJoin));
            var n := t.sess.devNonce + 1;
      && s'.wsUp == s.wsUp && s'.wsDown == s.wsDown && s'.lns == s.lns && d in s'.tags
      && s'.tags[d] == t.(sess := AfterNonce(t.sess), phase := Waiting(n), sentNonce := n,
                          up := t.up + [Up(Request(w, d, n))])
  {
  }

  /** The gateway passes the request at the head of the link on to the server. */
  lemma Forward(w: World, s: State, d: string, nonce: nat, xtime: int)
    requires w.Valid() && d in s.tags && d in w.provs && nonce < TWO_TO_16
    requires s.tags[d].up == [Up(Request(w, d, nonce))]
    ensures var s' := Next(w, s, GatewayUp(d, xtime));
      && d in s'.tags && s'.tags[d] == s.tags[d].(up := [])
      && |s'.wsUp| == |s.wsUp| + 1 && s'.wsUp[..|s.wsUp|] == s.wsUp && s'.wsDown == s.wsDown && s'.lns == s.lns
      && var m := s'.wsUp[|s.wsUp|]; JreqFor(d)(m) && m.jr.devNonce == nonce && ParseEui64(m.jr.joinEui).Some?
  {
    RequestArrives(w, d, nonce, xtime);
    PassOn(w, s, d, Request(w, d, nonce), xtime);
  }

  lemma PassOn(w: World, s: State, d: string, phy: string, xtime: int)
    requires d in s.tags && s.tags[d].up == [Up(phy)]
    ensures var s' := Next(w, s, GatewayUp(d, xtime));
      && d in s'.tags && s'.tags[d] == s.tags[d].(up := [])
      && s'.wsUp == s.wsUp + Forwarded(phy, xtime) && s'.wsDown == s.wsDown && s'.lns == s.lns
  {
  }

  /** The first join-request has reached the server. */
  predicate AtFour(s: State, d: string, joinNonce: nat) {
    && d in s.tags
    && s.tags[d] == NEW_TAG.(sess := AfterNonce(NEW_SESSION), phase := Waiting(1), sentNonce := 1, registered := true)
    && |s.wsUp| == 1 && JreqFor(d)(s.wsUp[0]) && s.wsUp[0].jr.devNonce == 1 && ParseEui64(s.wsUp[0].jr.joinEui).Some?
    && s.wsDown == [] && s.lns.joinNonce == joinNonce
  }

  lemma Connects(w: World, s: State, d: string)
    requires d in s.tags && d in w.provs && s.tags[d] == NEW_TAG
    ensures var s' := Next(w, s, Here(d, Connect(0)));
      && s' == s.(tags := s'.tags) && d in s'.tags && s'.tags[d] == NEW_TAG.(up := [Hello])
  {
  }

  lemma FromTheStart(w: World, d: string, joinNonce: nat) returns (s: State)
    requires d in w.provs
    ensures DisciplinedReachable(w, joinNonce, s) && d in s.tags && s.tags[d] == NEW_TAG
    ensures s.wsUp == [] && s.wsDown == [] && s.lns.joinNonce == joinNonce
  {
    s := Initial(w, joinNonce);
    assert Disciplined(w, joinNonce, []) && s == Network.Run(w, joinNonce, []);
  }

  lemma ToOne(w: World, d: string, joinNonce: nat) returns (s: State)
    requires d in w.provs
    ensures DisciplinedReachable(w, joinNonce, s)
    ensures d in s.tags && s.wsUp == [] && s.wsDown == [] && s.lns.joinNonce == joinNonce
    ensures s.tags[d] == NEW_TAG.(up := [Hello])
  {
    var s0 := FromTheStart(w, d, joinNonce);
    Connects(w, s0, d);
    ReachDisciplined(w, joinNonce, s0, Here(d, Connect(0)));
    s := Next(w, s0, Here(d, Connect(0)));
  }

  lemma NothingYet(s: State, d: string)
    requires d in s.tags && s.tags[d] == NEW_TAG.(up := [Hello]) && s.wsUp == [] && s.wsDown == []
    ensures Outstanding(s, d) == 0
  {
    NothingUnderWay(s, d);
  }

  lemma BeginsFromHello(w: World, s: State, d: string)
    requires d in s.tags && d in w.provs && s.tags[d] == NEW_TAG.(up := [Hello])
    ensures var s' := Next(w, s, Here(d, BeginJoin));
      && s' == s.(tags := s'.tags) && d in s'.tags
      && s'.tags[d] == NEW_TAG.(sess := AfterNonce(NEW_SESSION), phase := Waiting(1), sentNonce := 1,
                                up := [Hello, Up(Request(w, d, 1))])
  {
    Begin(w, s, d);
  }

  lemma ToTwo(w: World, d: string, joinNonce: nat) returns (s: State)
    requires d in w.provs
    ensures DisciplinedReachable(w, joinNonce, s)
    ensures d in s.tags && s.wsUp == [] && s.wsDown == [] && s.lns.joinNonce == joinNonce
    ensures s.tags[d] == NEW_TAG.(sess := AfterNonce(NEW_SESSION), phase := Waiting(1), sentNonce := 1,
                                  up := [Hello, Up(Request(w, d, 1))])
  {
    var s1 := ToOne(w, d, joinNonce);
    NothingYet(s1, d);
    ReachDisciplined(w, joinNonce, s1, Here(d, BeginJoin));
    BeginsFromHello(w, s1, d);
    s := Next(w, s1, Here(d, BeginJoin));
  }

  lemma ToFour(w: World, d: string, joinNonce: nat) returns (s: State)
    requires w.Valid() && d in w.provs
    ensures DisciplinedReachable(w, joinNonce, s) && AtFour(s, d, joinNonce)
  {
    var s2 := ToTwo(w, d, joinNonce);
    ReadsHello(w, s2, d, Up(Request(w, d, 1)), 1);
    ReachDisciplined(w, joinNonce, s2, GatewayUp(d, 1));
    var s3 := Next(w, s2, GatewayUp(d, 1));
    Forward(w, s3, d, 1, 2);
    ReachDisciplined(w, joinNonce, s3, GatewayUp(d, 2));
    s := Next(w, s3, GatewayUp(d, 2));
  }

  lemma ReadsHello(w: World, s: State, d: string, m: UpMsg, xtime: int)
    requires d in s.tags && s.tags[d].up == [Hello, m]
    ensures var s' := Next(w, s, GatewayUp(d, xtime));
      && d in s'.tags && s'.tags[d] == s.tags[d].(up := [m], registered := true)
      && s'.wsUp == s.wsUp && s'.wsDown == s.wsDown && s'.lns == s.lns
  {
  }

  /** The first accept is on its way to the gateway. */
  predicate AtFive(w: World, s: State, d: string, joinNonce: nat, t: TagState) {
    && JoinFrames.FitsAccept(AcceptOf(w.cfg, joinNonce))
    && d in s.tags && s.tags[d] == t
    && s.wsUp == [] && |s.wsDown| == 1 && s.wsDown[0].devEui == d && s.lns.joinNonce == joinNonce
    && s.wsDown[0].pdu == Hex.Encode(AcceptPdu(w, joinNonce))
  }

  lemma AnswersFirst(w: World, s: State, d: string, n: nat)
    requires d in w.provs && d in s.tags && |s.wsUp| == 1 && s.wsDown == []
    requires n == Successor(s.lns.joinNonce) && JoinFrames.FitsAccept(AcceptOf(w.cfg, n))
    requires JreqFor(d)(s.wsUp[0]) && ParseEui64(s.wsUp[0].jr.joinEui).Some?
    ensures var s' := Next(w, s, LnsRead);
      && AtFive(w, s', d, n, s.tags[d])
      && d in s'.lns.sessions && s'.lns.sessions[d] == JoinInfo(n, s.wsUp[0].jr.devNonce, 0)
  {
    Answer(w, s, d, n);
  }

  lemma ToFive(w: World, d: string, joinNonce: nat) returns (s: State)
    requires w.Valid() && d in w.provs && joinNonce + 1 < TWO_TO_24
    requires JoinFrames.FitsAccept(AcceptOf(w.cfg, joinNonce + 1))
    ensures DisciplinedReachable(w, joinNonce, s)
    ensures AtFive(w, s, d, joinNonce + 1,
                   NEW_TAG.(sess := AfterNonce(NEW_SESSION), phase := Waiting(1), sentNonce := 1, registered := true))
    ensures d in s.lns.sessions && s.lns.sessions[d] == JoinInfo(joinNonce + 1, 1, 0)
  {
    var s4 := ToFour(w, d, joinNonce);
    AnswersFirst(w, s4, d, joinNonce + 1);
    ReachDisciplined(w, joinNonce, s4, LnsRead);
    s := Next(w, s4, LnsRead);
  }

  // Continuing a run

  lemma RunLast(w: World, joinNonce: nat, steps: seq<Step>, before: seq<Step>, last: Step)
    requires steps != [] && before == steps[..|steps| - 1] && last == steps[|steps| - 1]
    ensures Network.Run(w, joinNonce, steps) == Next(w, Network.Run(w, joinNonce, before), last)
  {
  }

  lemma RunSnoc(w: World, joinNonce: nat, before: seq<Step>, more: seq<Step>)
    requires more != []
    ensures Network.Run(w, joinNonce, before + more)
         == Next(w, Network.Run(w, joinNonce, before + more[..|more| - 1]), more[|more| - 1])
  {
    var all := before + more;
    assert all[..|all| - 1] == before + more[..|more| - 1];
    RunLast(w, joinNonce, all, before + more[..|more| - 1], more[|more| - 1]);
  }

  lemma OwnAct(w: World, s: State, d: string, act: Act)
    requires d in s.tags && d in w.provs
    ensures var s' := Next(w, s, Here(d, act));
      s' == s.(tags := s'.tags) && d in s'.tags && s'.tags[d] == Local(w.p, w.provs[d], s.tags[d], act)
  {
  }

  /** Steps of other tags and of the links touch the tag's links only. */
  lemma MovingMessages(w: World, s: State, step: Step, d: string)
    requires d in s.tags && (step.Here? && d in w.provs ==> step.d != d)
    ensures var s' := Next(w, s, step);
      && d in s'.tags
      && s'.tags[d] == s.tags[d].(up := s'.tags[d].up, down := s'.tags[d].down, registered := s'.tags[d].registered)
  {
  }
}
