/** Why one join at a time: what happens when a join-accept arrives for a request the tag has given up on,
    and what a joined or a restarted client can no longer do. */
module StaleJoins {
  import opened ByteStrings
  import opened JoinRuns
  import opened KeyAgreement
  import opened MockLns
  import opened Network
  import opened Sessions
  import opened Wrappers
  import Hex
  import JoinFrames
  import Keys

  lemma SavedSession(w: World, s: State, d: string, joinNonce: nat)
    requires w.Valid() && d in s.tags && d in w.provs
    requires JoinFrames.FitsAccept(AcceptOf(w.cfg, joinNonce))
    requires s.tags[d].phase.Holding?
    requires s.tags[d].phase.pdu == JoinFrames.JoinAcceptFrame(w.p, w.cfg.appKey, AcceptOf(w.cfg, joinNonce))
    ensures var keys := Keys.KeysOf(w.p, w.cfg.appKey, w.cfg.netId, joinNonce, s.tags[d].phase.nonce);
            var s' := Next(w, s, Here(d, SaveAccept));
      && s'.lns == s.lns && d in s'.tags
      && s'.tags[d].sess.joined && s'.tags[d].sessNonce == s.tags[d].phase.nonce
      && s'.tags[d].sentNonce == s.tags[d].sentNonce
      && s'.tags[d].sess.nwkSKey == Hex.Encode(keys.nwk)
      && s'.tags[d].sess.appSKey == Hex.Encode(keys.app)
      && s'.tags[d].sess.devAddr == Hex.Encode(w.cfg.devAddr)
  {
    JoinFrames.JoinAcceptRoundTrip(w.p, w.provs[d], s.tags[d].phase.nonce, AcceptOf(w.cfg, joinNonce));
  }

  lemma SameKeysIff(w: World, joinNonce: nat, nonce: nat, info: JoinInfo)
    requires w.p.Lawful() && joinNonce < TWO_TO_24 && nonce < TWO_TO_16
    requires info.joinNonce < TWO_TO_24 && info.devNonce < TWO_TO_16
    ensures Hex.Encode(Keys.KeysOf(w.p, w.cfg.appKey, w.cfg.netId, joinNonce, nonce).nwk)
         == Hex.Encode(Keys.KeysOf(w.p, w.cfg.appKey, w.cfg.netId, info.joinNonce, info.devNonce).nwk)
       <==> info.joinNonce == joinNonce && info.devNonce == nonce
  {
    Keys.SessionKeyInjective(w.p, w.cfg.appKey, Keys.NWK_SKEY, w.cfg.netId, joinNonce, nonce,
                             Keys.NWK_SKEY, w.cfg.netId, info.joinNonce, info.devNonce);
    Hex.RoundTrip(Keys.KeysOf(w.p, w.cfg.appKey, w.cfg.netId, joinNonce, nonce).nwk);
    Hex.RoundTrip(Keys.KeysOf(w.p, w.cfg.appKey, w.cfg.netId, info.joinNonce, info.devNonce).nwk);
  }

  /** A tag holding any accept of this server, for any request of its own, ends up with the server's keys exactly
      when the accept answers what the server remembers: the same join nonce and the same DevNonce. */
  lemma SavedKeysAgreeIff(w: World, s: State, d: string, joinNonce: nat)
    requires w.Valid() && d in s.tags && d in w.provs && d in s.lns.sessions
    requires JoinFrames.FitsAccept(AcceptOf(w.cfg, joinNonce))
    requires s.tags[d].phase.Holding? && s.tags[d].phase.nonce < TWO_TO_16
    requires s.tags[d].phase.pdu == JoinFrames.JoinAcceptFrame(w.p, w.cfg.appKey, AcceptOf(w.cfg, joinNonce))
    requires s.lns.sessions[d].joinNonce < TWO_TO_24 && s.lns.sessions[d].devNonce < TWO_TO_16
    ensures d in Next(w, s, Here(d, SaveAccept)).tags
    ensures KeysAgree(w, Next(w, s, Here(d, SaveAccept)), d)
       <==> s.lns.sessions[d].joinNonce == joinNonce && s.lns.sessions[d].devNonce == s.tags[d].phase.nonce
  {
    SavedSession(w, s, d, joinNonce);
    SameKeysIff(w, joinNonce, s.tags[d].phase.nonce, s.lns.sessions[d]);
  }

  // A concrete run with two joins under way: connect, join, give up while the accept is on the way down, join again,
  // have the
  // second request answered too, then read the first accept and save it

  lemma Delivers(w: World, s: State, d: string, h: string)
    requires d in s.tags && d in w.provs && s.tags[d].registered && s.tags[d].down == [] && s.tags[d].phase.Waiting?
    requires |s.wsDown| == 1 && s.wsDown[0].devEui == d && s.wsDown[0].pdu == h && s.wsUp == []
    ensures var s' := Next(w, Next(w, s, GatewayDown(true)), Here(d, TimeOut));
      && d in s'.tags && s'.tags[d] == s.tags[d].(down := [h], phase := Idle)
      && |s'.wsUp| == 1 && s'.wsUp[0].DntxedMsg? && s'.wsDown == [] && s'.lns == s.lns
  {
    var routed := Next(w, s, GatewayDown(true));
    assert routed.tags[d] == s.tags[d].(down := [h]);
  }

  lemma ServesConfirmation(w: World, s: State)
    requires s.wsUp != [] && s.wsUp[0].DntxedMsg?
    ensures Next(w, s, LnsRead) == s.(wsUp := s.wsUp[1..])
  {
  }

  /** The first accept waits on the tag's link; the tag is no longer waiting for it. */
  predicate AtSeven(w: World, s: State, d: string, joinNonce: nat) {
    && JoinFrames.FitsAccept(AcceptOf(w.cfg, joinNonce + 1))
    && d in s.tags
    && s.tags[d] == NEW_TAG.(sess := AfterNonce(NEW_SESSION), sentNonce := 1, registered := true,
                             down := [Hex.Encode(AcceptPdu(w, joinNonce + 1))])
    && |s.wsUp| == 1 && s.wsUp[0].DntxedMsg? && s.wsDown == []
    && s.lns.joinNonce == joinNonce + 1
  }

  lemma ToSeven(w: World, d: string, joinNonce: nat) returns (s: State)
    requires w.Valid() && d in w.provs && joinNonce + 2 < TWO_TO_24
    requires JoinFrames.FitsAccept(AcceptOf(w.cfg, joinNonce + 1))
    ensures Reachable(w, joinNonce, s) && AtSeven(w, s, d, joinNonce)
  {
    var s5 := ToFive(w, d, joinNonce);
    Delivers(w, s5, d, s5.wsDown[0].pdu);
    ReachTwo(w, joinNonce, s5, GatewayDown(true), Here(d, TimeOut));
    s := Next(w, Next(w, s5, GatewayDown(true)), Here(d, TimeOut));
  }

  /** The second request has been answered too, so the server has forgotten the first; the tag has not read the
      first accept yet. */
  predicate AtEleven(w: World, s: State, d: string, joinNonce: nat) {
    && JoinFrames.FitsAccept(AcceptOf(w.cfg, joinNonce + 1))
    && d in s.tags
    && s.tags[d] == NEW_TAG.(sess := AfterNonce(AfterNonce(NEW_SESSION)), sentNonce := 2, phase := Waiting(2),
                             registered := true,
                             down := [Hex.Encode(AcceptPdu(w, joinNonce + 1))])
    && d in s.lns.sessions && s.lns.sessions[d] == JoinInfo(joinNonce + 2, 2, 0)
    && JoinFrames.FitsAccept(AcceptOf(w.cfg, joinNonce + 2))
    && s.wsUp == [] && |s.wsDown| == 1 && s.wsDown[0].devEui == d
    && s.wsDown[0].pdu == Hex.Encode(AcceptPdu(w, joinNonce + 2))
  }

  /** The second request waits at the server behind the confirmation of the first accept. */
  predicate AtNine(w: World, s: State, d: string, joinNonce: nat) {
    && JoinFrames.FitsAccept(AcceptOf(w.cfg, joinNonce + 1))
    && d in s.tags && s.lns.joinNonce == joinNonce + 1 && s.wsDown == [] && |s.wsUp| == 2 && s.wsUp[0].DntxedMsg?
    && JreqFor(d)(s.wsUp[1]) && s.wsUp[1].jr.devNonce == 2 && ParseEui64(s.wsUp[1].jr.joinEui).Some?
    && s.tags[d] == NEW_TAG.(sess := AfterNonce(AfterNonce(NEW_SESSION)), sentNonce := 2, phase := Waiting(2),
                             registered := true,
                             down := [Hex.Encode(AcceptPdu(w, joinNonce + 1))])
  }

  lemma BeginsAgain(w: World, s: State, d: string, joinNonce: nat)
    requires w.Valid() && d in w.provs && AtSeven(w, s, d, joinNonce)
    ensures AtNine(w, Next(w, Next(w, s, Here(d, BeginJoin)), GatewayUp(d, 3)), d, joinNonce)
  {
    Begin(w, s, d);
    var s8 := Next(w, s, Here(d, BeginJoin));
    assert s8.tags[d].up == [Up(Request(w, d, 2))];
    Forward(w, s8, d, 2, 3);
    var s9 := Next(w, s8, GatewayUp(d, 3));
    assert s9.wsUp[0] == s9.wsUp[..1][0];
  }

  lemma ToNine(w: World, d: string, joinNonce: nat) returns (s: State)
    requires w.Valid() && d in w.provs && joinNonce + 2 < TWO_TO_24
    requires JoinFrames.FitsAccept(AcceptOf(w.cfg, joinNonce + 1))
    ensures Reachable(w, joinNonce, s) && AtNine(w, s, d, joinNonce)
  {
    var s7 := ToSeven(w, d, joinNonce);
    BeginsAgain(w, s7, d, joinNonce);
    ReachTwo(w, joinNonce, s7, Here(d, BeginJoin), GatewayUp(d, 3));
    s := Next(w, Next(w, s7, Here(d, BeginJoin)), GatewayUp(d, 3));
  }

  /** Having skipped the confirmation, the server answers the second request. */
  lemma AnswersSecond(w: World, s: State, d: string, n: nat)
    requires d in w.provs && |s.wsUp| == 2 && s.wsUp[0].DntxedMsg?
    requires n == Successor(s.lns.joinNonce) && JoinFrames.FitsAccept(AcceptOf(w.cfg, n))
    requires JreqFor(d)(s.wsUp[1]) && ParseEui64(s.wsUp[1].jr.joinEui).Some?
    ensures var s' := Next(w, Next(w, s, LnsRead), LnsRead);
      && s'.tags == s.tags && d in s'.lns.sessions && s'.lns.sessions[d] == JoinInfo(n, s.wsUp[1].jr.devNonce, 0)
      && s'.wsUp == [] && |s'.wsDown| == |s.wsDown| + 1 && s'.wsDown[|s.wsDown|].devEui == d
      && s'.wsDown[|s.wsDown|].pdu == Hex.Encode(AcceptPdu(w, n))
  {
    ServesConfirmation(w, s);
    Answer(w, s.(wsUp := s.wsUp[1..]), d, n);
  }

  lemma ToEleven(w: World, d: string, joinNonce: nat) returns (s: State)
    requires w.Valid() && d in w.provs && joinNonce + 2 < TWO_TO_24
    requires JoinFrames.FitsAccept(AcceptOf(w.cfg, joinNonce + 1))
    ensures Reachable(w, joinNonce, s) && AtEleven(w, s, d, joinNonce)
  {
    var s9 := ToNine(w, d, joinNonce);
    AnswersSecond(w, s9, d, joinNonce + 2);
    ReachTwo(w, joinNonce, s9, LnsRead, LnsRead);
    s := Next(w, Next(w, s9, LnsRead), LnsRead);
  }

  /** The tag has taken the old accept for its second request; the new accept is still on its way. */
  predicate AtThirteen(w: World, s: State, d: string, joinNonce: nat) {
    && JoinFrames.FitsAccept(AcceptOf(w.cfg, joinNonce + 1)) && JoinFrames.FitsAccept(AcceptOf(w.cfg, joinNonce + 2))
    && d in s.tags
    && s.tags[d] == NEW_TAG.(sess := AfterNonce(AfterNonce(NEW_SESSION)), sentNonce := 2, registered := true,
                             phase := Holding(2, AcceptPdu(w, joinNonce + 1)))
    && d in s.lns.sessions && s.lns.sessions[d] == JoinInfo(joinNonce + 2, 2, 0)
    && s.wsUp == [] && |s.wsDown| == 1 && s.wsDown[0].devEui == d
    && s.wsDown[0].pdu == Hex.Encode(AcceptPdu(w, joinNonce + 2))
  }

  lemma ReadsInto(w: World, s: State, d: string, h: string, pdu: Bytes)
    requires d in s.tags && d in w.provs && s.tags[d].down == [h] && Hex.Decode(h) == Some(pdu)
    requires !s.tags[d].clientJoined && s.tags[d].joinCh.None?
    ensures var s' := Next(w, s, Here(d, TagRead));
      s' == s.(tags := s'.tags) && d in s'.tags && s'.tags[d] == s.tags[d].(down := [], joinCh := Some(pdu))
  {
  }

  lemma TakesFromChannel(w: World, s: State, d: string, pdu: Bytes)
    requires d in s.tags && d in w.provs && s.tags[d].joinCh == Some(pdu) && s.tags[d].phase.Waiting?
    ensures var s' := Next(w, s, Here(d, TakeAccept));
      && s' == s.(tags := s'.tags) && d in s'.tags
      && s'.tags[d] == s.tags[d].(joinCh := None, phase := Holding(s.tags[d].phase.nonce, pdu))
  {
  }

  lemma ToThirteen(w: World, d: string, joinNonce: nat) returns (s: State)
    requires w.Valid() && d in w.provs && joinNonce + 2 < TWO_TO_24
    requires JoinFrames.FitsAccept(AcceptOf(w.cfg, joinNonce + 1))
    ensures Reachable(w, joinNonce, s) && AtThirteen(w, s, d, joinNonce)
  {
    var s11 := ToEleven(w, d, joinNonce);
    var pdu := AcceptPdu(w, joinNonce + 1);
    Hex.RoundTrip(pdu);
    ReadsInto(w, s11, d, Hex.Encode(pdu), pdu);
    var s12 := Next(w, s11, Here(d, TagRead));
    TakesFromChannel(w, s12, d, pdu);
    ReachTwo(w, joinNonce, s11, Here(d, TagRead), Here(d, TakeAccept));
    s := Next(w, s12, Here(d, TakeAccept));
  }

  lemma SaveCompletes(w: World, s: State, d: string, n: nat)
    requires w.Valid() && d in s.tags && d in w.provs && JoinFrames.FitsAccept(AcceptOf(w.cfg, n))
    requires s.tags[d].phase.Holding? && s.tags[d].phase.pdu == AcceptPdu(w, n)
    requires s.tags[d].phase.nonce == s.tags[d].sentNonce
    ensures d in Next(w, s, Here(d, SaveAccept)).tags && Completed(Next(w, s, Here(d, SaveAccept)).tags[d])
  {
    SavedSession(w, s, d, n);
  }

  lemma SaveDisagrees(w: World, s: State, d: string, joinNonce: nat)
    requires w.Valid() && d in w.provs && joinNonce + 2 < TWO_TO_24 && AtThirteen(w, s, d, joinNonce)
    ensures d in Next(w, s, Here(d, SaveAccept)).tags && !KeysAgree(w, Next(w, s, Here(d, SaveAccept)), d)
  {
    SavedKeysAgreeIff(w, s, d, joinNonce + 1);
  }

  /** With two joins under way a tag can complete its latest join and hold keys the server does not have. */
  lemma TwoJoinsDisagree(w: World, d: string, joinNonce: nat) returns (s: State)
    requires w.Valid() && d in w.provs && joinNonce + 2 < TWO_TO_24
    requires JoinFrames.FitsAccept(AcceptOf(w.cfg, joinNonce + 1))
    ensures Reachable(w, joinNonce, s) && d in s.tags && Completed(s.tags[d]) && !KeysAgree(w, s, d)
  {
    var held := ToThirteen(w, d, joinNonce);
    SaveDisagrees(w, held, d, joinNonce);
    SaveCompletes(w, held, d, joinNonce + 1);
    Reach(w, joinNonce, held, Here(d, SaveAccept));
    s := Next(w, held, Here(d, SaveAccept));
  }

  // A new client for a stored session

  /** A client connected for a tag whose session is already stored sends no uplink until it joins again, however
      long it runs. */
  lemma {:induction false} ReconnectedClientIsMute(w: World, joinNonce: nat, steps: seq<Step>, more: seq<Step>,
      d: string)
    requires d in w.provs
    requires var s := Network.Run(w, joinNonce, steps); d in s.tags && !s.tags[d].clientJoined && s.tags[d].phase.Idle?
    requires forall step <- more :: step != Here(d, BeginJoin)
    ensures var s, s' := Network.Run(w, joinNonce, steps), Network.Run(w, joinNonce, steps + more);
      d in s'.tags && !s'.tags[d].clientJoined && s'.tags[d].phase.Idle? && s'.tags[d].sess == s.tags[d].sess
  {
    if more == [] {
      assert steps + more == steps;
    } else {
      var before, last := more[..|more| - 1], more[|more| - 1];
      assert last in more && forall step <- before :: step in more;
      ReconnectedClientIsMute(w, joinNonce, steps, before, d);
      RunSnoc(w, joinNonce, steps, more);
      MuteStays(w, Network.Run(w, joinNonce, steps + before), last, d);
    }
  }

  lemma MuteStays(w: World, s: State, step: Step, d: string)
    requires d in s.tags && !s.tags[d].clientJoined && s.tags[d].phase.Idle? && step != Here(d, BeginJoin)
    ensures var s' := Next(w, s, step);
      d in s'.tags && !s'.tags[d].clientJoined && s'.tags[d].phase.Idle? && s'.tags[d].sess == s.tags[d].sess
  {
  }
}
