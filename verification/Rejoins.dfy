/** When a client that has joined can join again: internal/tag/client.go reads every accept after the joined flag
    as data, but an accept that is already in joinCh stays there for the next call of Join. */
module Rejoins {
  import opened ByteStrings
  import opened Crypto
  import opened JoinRuns
  import opened KeyAgreement
  import opened MockLns
  import opened Network
  import opened Sessions
  import opened Wrappers
  import DeviceRuns
  import Hex
  import JoinFrames
  import StaleJoins

  predicate SameKeys(a: Session, b: Session) {
    a.devAddr == b.devAddr && a.nwkSKey == b.nwkSKey && a.appSKey == b.appSKey
  }

  predicate Reconnects(step: Step, d: string) {
    step.Here? && step.d == d && step.act.Connect?
  }

  // What holds of a tag in every run

  /** A stored session holds keys derived from the DevNonce it is recorded under. */
  ghost predicate KeysFrom(w: World, d: string, t: TagState)
    requires d in w.provs
  {
    t.sess.joined ==>
      && ParseKey(t.sess.nwkSKey).Some? && ParseKey(t.sess.appSKey).Some?
      && DeviceRuns.DerivedWith(
           w.p, w.provs[d].appKey, ParseKey(t.sess.nwkSKey).value, ParseKey(t.sess.appSKey).value, t.sessNonce)
  }

  predicate NoncesInOrder(t: TagState) {
    && t.sessNonce <= t.sentNonce <= t.sess.devNonce && t.sentNonce < TWO_TO_16
    && (!t.phase.Idle? ==> t.sentNonce == t.sess.devNonce)
    && (t.phase.Waiting? || t.phase.Holding? ==> t.phase.nonce == t.sentNonce && t.sessNonce < t.sentNonce)
    && (t.phase.Saved? ==> t.sess.joined && t.sessNonce == t.sentNonce)
    && (t.clientJoined ==> t.sess.joined)
  }

  ghost predicate TagSound(w: World, d: string, t: TagState)
    requires d in w.provs
  {
    NoncesInOrder(t) && KeysFrom(w, d, t)
  }

  /** Only the frame counters, the links and the history of downlinks have changed. */
  predicate OnlyTraffic(t: TagState, t': TagState) {
    && t' == t.(sess := t'.sess, joinCh := t'.joinCh, up := t'.up, down := t'.down, registered := t'.registered,
                received := t'.received)
    && t'.sess == t.sess.(fcntUp := t'.sess.fcntUp, fcntDown := t'.sess.fcntDown)
  }

  lemma TrafficKeepsSound(w: World, d: string, t: TagState, t': TagState)
    requires d in w.provs && TagSound(w, d, t) && OnlyTraffic(t, t')
    ensures TagSound(w, d, t')
  {
  }

  lemma ReadingIsTraffic(p: Primitives, t: TagState)
    requires t.down != []
    ensures var t' := ReadLink(p, t);
      && OnlyTraffic(t, t') && t'.sess.fcntUp == t.sess.fcntUp
      && (t.clientJoined ==> t'.joinCh == t.joinCh) && (!t.clientJoined ==> t'.sess == t.sess)
  {
    if Hex.Decode(t.down[0]).Some? {
      ReadLinkEffect(p, t, Hex.Decode(t.down[0]).value);
    }
  }

  lemma TransmittingIsTraffic(p: Primitives, t: TagState, fport: byte, data: Bytes)
    ensures var t' := Transmit(p, t, fport, data); OnlyTraffic(t, t') && t'.joinCh == t.joinCh
  {
  }

  lemma SavingKeepsSound(w: World, d: string, t: TagState)
    requires w.Valid() && d in w.provs && TagSound(w, d, t) && t.phase.Holding?
    ensures TagSound(w, d, FinishJoin(w.p, w.provs[d], t))
  {
    var r := JoinFrames.AcceptResult(w.p, w.provs[d], t.phase.nonce, t.phase.pdu);
    if r.Ok? {
      DeviceRuns.AcceptedKeys(w.p, w.provs[d], t.phase.nonce, t.phase.pdu);
      ParseKeyRoundTrip(r.value.keys.nwk);
      ParseKeyRoundTrip(r.value.keys.app);
    }
  }

  lemma ActKeepsSound(w: World, d: string, t: TagState, act: Act)
    requires w.Valid() && d in w.provs && TagSound(w, d, t)
    ensures TagSound(w, d, Local(w.p, w.provs[d], t, act))
  {
    match act
    case TagRead =>
      if t.down != [] {
        ReadingIsTraffic(w.p, t);
        TrafficKeepsSound(w, d, t, ReadLink(w.p, t));
      }
    case SendUplink(fport, data) =>
      TransmittingIsTraffic(w.p, t, fport, data);
      TrafficKeepsSound(w, d, t, Transmit(w.p, t, fport, data));
    case SaveAccept =>
      if t.phase.Holding? {
        SavingKeepsSound(w, d, t);
      }
    case _ =>
  }

  lemma {:induction false} TagsAreSound(w: World, joinNonce: nat, steps: seq<Step>, d: string)
    requires w.Valid() && d in w.provs
    ensures var s := Network.Run(w, joinNonce, steps); d in s.tags && TagSound(w, d, s.tags[d])
  {
    if steps != [] {
      var s, step := Network.Run(w, joinNonce, steps[..|steps| - 1]), steps[|steps| - 1];
      TagsAreSound(w, joinNonce, steps[..|steps| - 1], d);
      if step.Here? && step.d == d {
        OwnAct(w, s, d, step.act);
        ActKeepsSound(w, d, s.tags[d], step.act);
      } else {
        MovingMessages(w, s, step, d);
        TrafficKeepsSound(w, d, s.tags[d], Next(w, s, step).tags[d]);
      }
    }
  }

  // The next join of a joined client, exactly

  /** It passes for an accept, whatever the DevNonce it is taken for. */
  predicate PassesForAccept(w: World, d: string, data: Bytes)
    requires d in w.provs
  {
    JoinFrames.AcceptResult(w.p, w.provs[d], 0, data).Ok?
  }

  predicate LeftoverAccept(w: World, d: string, joinCh: Option<Bytes>)
    requires d in w.provs
  {
    joinCh.Some? && PassesForAccept(w, d, joinCh.value)
  }

  /** Another join can be started. */
  predicate HasNonce(t: TagState) {
    t.sess.devNonce + 1 < TWO_TO_16
  }

  /** What passes for an accept is in the hands of a join, or in joinCh with a join waiting or still possible. */
  predicate CanRekey(w: World, d: string, t: TagState)
    requires d in w.provs
  {
    match t.phase
    case Waiting(_) => LeftoverAccept(w, d, t.joinCh)
    case Holding(_, pdu) => PassesForAccept(w, d, pdu) || (LeftoverAccept(w, d, t.joinCh) && HasNonce(t))
    case _ => LeftoverAccept(w, d, t.joinCh) && HasNonce(t)
  }

  lemma AcceptIgnoresNonce(p: Primitives, prov: JoinFrames.Provisioning, m: nat, n: nat, data: Bytes)
    ensures JoinFrames.AcceptResult(p, prov, m, data).Ok? <==> JoinFrames.AcceptResult(p, prov, n, data).Ok?
  {
  }

  lemma UselessSave(w: World, d: string, t: TagState)
    requires d in w.provs && t.phase.Holding? && !PassesForAccept(w, d, t.phase.pdu)
    ensures FinishJoin(w.p, w.provs[d], t) == t.(phase := Idle)
  {
    AcceptIgnoresNonce(w.p, w.provs[d], 0, t.phase.nonce, t.phase.pdu);
  }

  /** A joined client that has no accept, and can come by none. */
  predicate Stuck(w: World, d: string, t: TagState)
    requires d in w.provs
  {
    t.clientJoined && !CanRekey(w, d, t)
  }

  lemma StuckTraffic(w: World, d: string, t: TagState, t': TagState)
    requires d in w.provs && Stuck(w, d, t) && OnlyTraffic(t, t') && t'.joinCh == t.joinCh
    ensures Stuck(w, d, t') && SameKeys(t.sess, t'.sess)
  {
  }

  lemma StuckOther(w: World, d: string, t: TagState, act: Act)
    requires d in w.provs && Stuck(w, d, t)
    requires !act.Connect? && !act.TagRead? && !act.SendUplink? && !act.SaveAccept?
    ensures var t' := Local(w.p, w.provs[d], t, act); Stuck(w, d, t') && SameKeys(t.sess, t'.sess)
  {
  }

  lemma StuckAct(w: World, d: string, t: TagState, act: Act)
    requires d in w.provs && Stuck(w, d, t) && !act.Connect?
    ensures var t' := Local(w.p, w.provs[d], t, act); Stuck(w, d, t') && SameKeys(t.sess, t'.sess)
  {
    if act.TagRead? {
      if t.down != [] {
        ReadingIsTraffic(w.p, t);
        StuckTraffic(w, d, t, ReadLink(w.p, t));
      }
    } else if act.SendUplink? {
      TransmittingIsTraffic(w.p, t, act.fport, act.data);
      StuckTraffic(w, d, t, Transmit(w.p, t, act.fport, act.data));
    } else if act.SaveAccept? {
      if t.phase.Holding? {
        UselessSave(w, d, t);
      }
    } else {
      StuckOther(w, d, t, act);
    }
  }

  lemma {:induction false} StuckClientKeepsKeys(
    w: World, joinNonce: nat, steps: seq<Step>, more: seq<Step>, d: string)
    requires d in w.provs
    requires var s := Network.Run(w, joinNonce, steps); d in s.tags && Stuck(w, d, s.tags[d])
    requires forall step <- more :: !Reconnects(step, d)
    ensures var s, s' := Network.Run(w, joinNonce, steps), Network.Run(w, joinNonce, steps + more);
      d in s'.tags && Stuck(w, d, s'.tags[d]) && SameKeys(s.tags[d].sess, s'.tags[d].sess)
  {
    if more == [] {
      assert steps + more == steps;
    } else {
      var before, last := more[..|more| - 1], more[|more| - 1];
      assert last in more && forall step <- before :: step in more;
      StuckClientKeepsKeys(w, joinNonce, steps, before, d);
      RunSnoc(w, joinNonce, steps, more);
      var s := Network.Run(w, joinNonce, steps + before);
      if last.Here? && last.d == d {
        OwnAct(w, s, d, last.act);
        StuckAct(w, d, s.tags[d], last.act);
      } else {
        MovingMessages(w, s, last, d);
        StuckTraffic(w, d, s.tags[d], Next(w, s, last).tags[d]);
      }
    }
  }

  /** Saving an acceptable accept for a later DevNonce changes the keys. */
  lemma SavingChangesKeys(w: World, d: string, t: TagState)
    requires w.Valid() && d in w.provs && TagSound(w, d, t) && t.sess.joined && t.phase.Holding?
    requires PassesForAccept(w, d, t.phase.pdu)
    ensures !SameKeys(t.sess, FinishJoin(w.p, w.provs[d], t).sess)
  {
    AcceptIgnoresNonce(w.p, w.provs[d], 0, t.phase.nonce, t.phase.pdu);
    DeviceRuns.AcceptedKeys(w.p, w.provs[d], t.phase.nonce, t.phase.pdu);
    ParseKeyRoundTrip(JoinFrames.AcceptResult(w.p, w.provs[d], t.phase.nonce, t.phase.pdu).value.keys.app);
  }

  lemma TakingThenSaving(w: World, d: string, t: TagState, held: TagState)
    requires w.Valid() && d in w.provs && TagSound(w, d, t)
    requires t.clientJoined && t.phase.Waiting? && LeftoverAccept(w, d, t.joinCh)
    requires held == t.(phase := Holding(t.phase.nonce, t.joinCh.value), joinCh := None)
    ensures !SameKeys(t.sess, FinishJoin(w.p, w.provs[d], held).sess)
  {
    SavingChangesKeys(w, d, held);
  }

  lemma Saves(w: World, s: State, d: string)
    requires d in s.tags && d in w.provs && s.tags[d].phase.Holding?
    ensures var s' := Next(w, s, Here(d, SaveAccept));
      d in s'.tags && s'.tags[d] == FinishJoin(w.p, w.provs[d], s.tags[d])
  {
  }

  lemma WaitingClientChangesKeys(w: World, s: State, d: string)
    requires w.Valid() && d in w.provs && d in s.tags && TagSound(w, d, s.tags[d])
    requires s.tags[d].clientJoined && s.tags[d].phase.Waiting? && LeftoverAccept(w, d, s.tags[d].joinCh)
    ensures var s' := Next(w, Next(w, s, Here(d, TakeAccept)), Here(d, SaveAccept));
      d in s'.tags && !SameKeys(s.tags[d].sess, s'.tags[d].sess)
  {
    var t, taken := s.tags[d], Next(w, s, Here(d, TakeAccept));
    StaleJoins.TakesFromChannel(w, s, d, t.joinCh.value);
    Saves(w, taken, d);
    TakingThenSaving(w, d, t, taken.tags[d]);
  }

  lemma RunTwo(w: World, joinNonce: nat, steps: seq<Step>, a: Step, b: Step)
    ensures Network.Run(w, joinNonce, steps + [a, b]) == Next(w, Next(w, Network.Run(w, joinNonce, steps), a), b)
  {
    assert (steps + [a, b])[..|steps| + 1] == steps + [a];
    assert (steps + [a])[..|steps|] == steps;
  }

  predicate KeysChanged(s: State, s': State, d: string) {
    d in s.tags && d in s'.tags && !SameKeys(s.tags[d].sess, s'.tags[d].sess)
  }

  /** Continuing with `more`, and without a new connection, the device ends up with other session keys. */
  predicate Rekeys(w: World, joinNonce: nat, steps: seq<Step>, more: seq<Step>, d: string) {
    && (forall step <- more :: !Reconnects(step, d))
    && KeysChanged(Network.Run(w, joinNonce, steps), Network.Run(w, joinNonce, steps + more), d)
  }

  lemma WaitingClientRekeys(w: World, joinNonce: nat, steps: seq<Step>, d: string)
    requires w.Valid() && d in w.provs
    requires var s := Network.Run(w, joinNonce, steps);
      && d in s.tags && s.tags[d].clientJoined && s.tags[d].phase.Waiting?
      && LeftoverAccept(w, d, s.tags[d].joinCh)
    ensures Rekeys(w, joinNonce, steps, [Here(d, TakeAccept), Here(d, SaveAccept)], d)
  {
    TagsAreSound(w, joinNonce, steps, d);
    RunTwo(w, joinNonce, steps, Here(d, TakeAccept), Here(d, SaveAccept));
    WaitingClientChangesKeys(w, Network.Run(w, joinNonce, steps), d);
  }

  lemma NoneReconnects(step: Step, more: seq<Step>, d: string)
    requires !Reconnects(step, d) && forall next <- more :: !Reconnects(next, d)
    ensures forall next <- [step] + more :: !Reconnects(next, d)
  {
  }

  lemma ChangedAfter(run: seq<Step> -> State, steps: seq<Step>, step: Step, more: seq<Step>, d: string)
    requires d in run(steps).tags && d in run(steps + [step]).tags
    requires SameKeys(run(steps).tags[d].sess, run(steps + [step]).tags[d].sess)
    requires KeysChanged(run(steps + [step]), run(steps + [step] + more), d)
    ensures KeysChanged(run(steps), run(steps + ([step] + more)), d)
  {
    assert steps + ([step] + more) == steps + [step] + more;
  }

  /** A step that leaves the keys alone can come first. */
  lemma RekeysAfter(w: World, joinNonce: nat, steps: seq<Step>, step: Step, more: seq<Step>, d: string)
    requires !Reconnects(step, d)
    requires var s, s' := Network.Run(w, joinNonce, steps), Network.Run(w, joinNonce, steps + [step]);
      d in s.tags && d in s'.tags && SameKeys(s.tags[d].sess, s'.tags[d].sess)
    requires Rekeys(w, joinNonce, steps + [step], more, d)
    ensures Rekeys(w, joinNonce, steps, [step] + more, d)
  {
    NoneReconnects(step, more, d);
    ChangedAfter(x => Network.Run(w, joinNonce, x), steps, step, more, d);
  }

  lemma AfterAct(w: World, joinNonce: nat, steps: seq<Step>, act: Act, d: string)
    requires d in w.provs && d in Network.Run(w, joinNonce, steps).tags
    ensures var s, s' := Network.Run(w, joinNonce, steps), Network.Run(w, joinNonce, steps + [Here(d, act)]);
      d in s'.tags && s'.tags[d] == Local(w.p, w.provs[d], s.tags[d], act)
  {
    assert (steps + [Here(d, act)])[..|steps|] == steps;
    OwnAct(w, Network.Run(w, joinNonce, steps), d, act);
  }

  lemma IdleClientRekeys(w: World, joinNonce: nat, steps: seq<Step>, d: string)
    requires w.Valid() && d in w.provs
    requires var s := Network.Run(w, joinNonce, steps);
      && d in s.tags && s.tags[d].clientJoined && s.tags[d].phase.Idle?
      && LeftoverAccept(w, d, s.tags[d].joinCh) && HasNonce(s.tags[d])
    ensures Rekeys(w, joinNonce, steps, [Here(d, BeginJoin)] + [Here(d, TakeAccept), Here(d, SaveAccept)], d)
  {
    AfterAct(w, joinNonce, steps, BeginJoin, d);
    WaitingClientRekeys(w, joinNonce, steps + [Here(d, BeginJoin)], d);
    RekeysAfter(w, joinNonce, steps, Here(d, BeginJoin), [Here(d, TakeAccept), Here(d, SaveAccept)], d);
  }

  lemma SavedKeysDiffer(w: World, d: string, t: TagState)
    requires w.Valid() && d in w.provs && TagSound(w, d, t)
    requires t.clientJoined && t.phase.Holding? && PassesForAccept(w, d, t.phase.pdu)
    ensures !SameKeys(t.sess, Local(w.p, w.provs[d], t, SaveAccept).sess)
  {
    SavingChangesKeys(w, d, t);
  }

  lemma HoldingClientRekeys(w: World, joinNonce: nat, steps: seq<Step>, d: string)
    requires w.Valid() && d in w.provs
    requires var s := Network.Run(w, joinNonce, steps);
      && d in s.tags && s.tags[d].clientJoined && s.tags[d].phase.Holding?
      && PassesForAccept(w, d, s.tags[d].phase.pdu)
    ensures Rekeys(w, joinNonce, steps, [Here(d, SaveAccept)], d)
  {
    TagsAreSound(w, joinNonce, steps, d);
    AfterAct(w, joinNonce, steps, SaveAccept, d);
    SavedKeysDiffer(w, d, Network.Run(w, joinNonce, steps).tags[d]);
  }

  /** Ready for a join that changes the keys, with the keys of `t`. */
  predicate IdleAgain(w: World, d: string, t: TagState, t': TagState)
    requires d in w.provs
  {
    t'.clientJoined && t'.phase.Idle? && LeftoverAccept(w, d, t'.joinCh) && HasNonce(t') && SameKeys(t.sess, t'.sess)
  }

  /** The step that ends a join without an accept, or with one already saved. */
  lemma FinishingStep(w: World, d: string, t: TagState)
    requires d in w.provs && t.clientJoined && LeftoverAccept(w, d, t.joinCh) && HasNonce(t)
    requires t.phase.Saved? || (t.phase.Holding? && !PassesForAccept(w, d, t.phase.pdu))
    ensures IdleAgain(w, d, t, Local(w.p, w.provs[d], t, if t.phase.Saved? then Announce else SaveAccept))
  {
    if t.phase.Holding? {
      UselessSave(w, d, t);
    }
  }

  lemma FinishedClientRekeys(w: World, joinNonce: nat, steps: seq<Step>, act: Act, d: string)
    requires w.Valid() && d in w.provs && d in Network.Run(w, joinNonce, steps).tags && !act.Connect?
    requires var t := Network.Run(w, joinNonce, steps).tags[d];
      IdleAgain(w, d, t, Local(w.p, w.provs[d], t, act))
    ensures Rekeys(w, joinNonce, steps,
                   [Here(d, act)] + ([Here(d, BeginJoin)] + [Here(d, TakeAccept), Here(d, SaveAccept)]), d)
  {
    AfterAct(w, joinNonce, steps, act, d);
    IdleClientRekeys(w, joinNonce, steps + [Here(d, act)], d);
    RekeysAfter(w, joinNonce, steps, Here(d, act),
                [Here(d, BeginJoin)] + [Here(d, TakeAccept), Here(d, SaveAccept)], d);
  }

  /** The steps that change the keys: what is left of the join under way, if that has the accept, or else, once it is
      over, the next join. */
  function NextJoin(w: World, d: string, t: TagState): seq<Step>
    requires d in w.provs
  {
    var finish := [Here(d, TakeAccept), Here(d, SaveAccept)];
    match t.phase
    case Idle => [Here(d, BeginJoin)] + finish
    case Waiting(_) => finish
    case Holding(_, pdu) =>
      if PassesForAccept(w, d, pdu) then [Here(d, SaveAccept)]
      else [Here(d, SaveAccept)] + ([Here(d, BeginJoin)] + finish)
    case Saved => [Here(d, Announce)] + ([Here(d, BeginJoin)] + finish)
  }

  lemma NextJoinRekeys(w: World, joinNonce: nat, steps: seq<Step>, d: string)
    requires w.Valid() && d in w.provs
    requires var s := Network.Run(w, joinNonce, steps);
      d in s.tags && s.tags[d].clientJoined && CanRekey(w, d, s.tags[d])
    ensures Rekeys(w, joinNonce, steps, NextJoin(w, d, Network.Run(w, joinNonce, steps).tags[d]), d)
  {
    var t := Network.Run(w, joinNonce, steps).tags[d];
    match t.phase
    case Idle => IdleClientRekeys(w, joinNonce, steps, d);
    case Waiting(_) => WaitingClientRekeys(w, joinNonce, steps, d);
    case Holding(_, pdu) =>
      if PassesForAccept(w, d, pdu) {
        HoldingClientRekeys(w, joinNonce, steps, d);
      } else {
        FinishingStep(w, d, t);
        FinishedClientRekeys(w, joinNonce, steps, SaveAccept, d);
      }
    case Saved =>
      FinishingStep(w, d, t);
      FinishedClientRekeys(w, joinNonce, steps, Announce, d);
  }

  /** A client that has joined, and stays connected, can get other session keys if and only if something that passes
      for an accept is in the hands of its join or left in joinCh for a join that waits or can still be started; then
      that join does change them. */
  lemma RejoinIff(w: World, joinNonce: nat, steps: seq<Step>, t: TagState, d: string)
    requires w.Valid() && d in w.provs && d in Network.Run(w, joinNonce, steps).tags
    requires t == Network.Run(w, joinNonce, steps).tags[d] && t.clientJoined
    ensures (exists more :: Rekeys(w, joinNonce, steps, more, d)) <==> CanRekey(w, d, t)
    ensures CanRekey(w, d, t) ==> Rekeys(w, joinNonce, steps, NextJoin(w, d, t), d)
  {
    if CanRekey(w, d, t) {
      NextJoinRekeys(w, joinNonce, steps, d);
    } else {
      forall more ensures !Rekeys(w, joinNonce, steps, more, d) {
        if forall step <- more :: !Reconnects(step, d) {
          StuckClientKeepsKeys(w, joinNonce, steps, more, d);
        }
      }
    }
  }

  // With one join at a time

  /** A joined client holds no accept, and a session just saved has not been used. */
  predicate Quiet(t: TagState) {
    && (t.clientJoined ==>
          && !t.phase.Saved?
          && (t.joinCh.Some? ==> IsData(t.joinCh.value))
          && (t.phase.Holding? ==> IsData(t.phase.pdu)))
    && (t.phase.Saved? ==> t.sess.fcntUp == 0 && t.sess.fcntDown == 0)
  }

  lemma QuietSave(w: World, d: string, t: TagState)
    requires d in w.provs && Quiet(t) && t.phase.Holding?
    ensures Quiet(FinishJoin(w.p, w.provs[d], t))
    ensures t.clientJoined ==> FinishJoin(w.p, w.provs[d], t) == t.(phase := Idle)
  {
    if t.clientJoined {
      JoinFrames.DataIsNoAccept(w.p, w.provs[d], t.phase.nonce, t.phase.pdu);
    }
  }

  lemma QuietAct(w: World, s: State, d: string, act: Act)
    requires w.Valid() && d in s.tags && d in w.provs && GoodDevice(w, s, d)
    requires NoncesInOrder(s.tags[d]) && Quiet(s.tags[d])
    ensures var t, t' := s.tags[d], Local(w.p, w.provs[d], s.tags[d], act);
      Quiet(t') && (t.clientJoined && !act.Connect? ==> t'.clientJoined && SameKeys(t.sess, t'.sess))
  {
    var t := s.tags[d];
    match act
    case TagRead =>
      if t.down != [] {
        ReadingIsTraffic(w.p, t);
      }
    case SendUplink(fport, data) => TransmittingIsTraffic(w.p, t, fport, data);
    case SaveAccept =>
      if t.phase.Holding? {
        QuietSave(w, d, t);
      }
    case _ =>
  }

  lemma {:induction false} DisciplinedRunsAreQuiet(w: World, joinNonce: nat, steps: seq<Step>, d: string)
    requires w.Valid() && d in w.provs && Disciplined(w, joinNonce, steps)
    ensures var s := Network.Run(w, joinNonce, steps); d in s.tags && Quiet(s.tags[d])
  {
    if steps != [] {
      var before, step := steps[..|steps| - 1], steps[|steps| - 1];
      var s := Network.Run(w, joinNonce, before);
      DisciplinedRunsAreQuiet(w, joinNonce, before, d);
      DisciplinedRunsAreGood(w, joinNonce, before);
      TagsAreSound(w, joinNonce, before, d);
      if step.Here? && step.d == d {
        OwnAct(w, s, d, step.act);
        QuietAct(w, s, d, step.act);
      } else {
        MovingMessages(w, s, step, d);
      }
    }
  }

  /** With one join per device at a time, a joined client keeps its session keys for as long as it stays
      connected, also when a data frame is left over in joinCh. */
  lemma {:induction false} DisciplinedClientKeepsKeys(
    w: World, joinNonce: nat, steps: seq<Step>, more: seq<Step>, d: string)
    requires w.Valid() && d in w.provs && Disciplined(w, joinNonce, steps + more)
    requires var s := Network.Run(w, joinNonce, steps); d in s.tags && s.tags[d].clientJoined
    requires forall step <- more :: !Reconnects(step, d)
    ensures var s, s' := Network.Run(w, joinNonce, steps), Network.Run(w, joinNonce, steps + more);
      d in s'.tags && s'.tags[d].clientJoined && SameKeys(s.tags[d].sess, s'.tags[d].sess)
  {
    if more == [] {
      assert steps + more == steps;
    } else {
      var before, last := more[..|more| - 1], more[|more| - 1];
      assert last in more && forall step <- before :: step in more;
      assert (steps + more)[..|steps + more| - 1] == steps + before;
      DisciplinedClientKeepsKeys(w, joinNonce, steps, before, d);
      RunSnoc(w, joinNonce, steps, more);
      var s := Network.Run(w, joinNonce, steps + before);
      DisciplinedRunsAreQuiet(w, joinNonce, steps + before, d);
      DisciplinedRunsAreGood(w, joinNonce, steps + before);
      TagsAreSound(w, joinNonce, steps + before, d);
      if last.Here? && last.d == d {
        OwnAct(w, s, d, last.act);
        QuietAct(w, s, d, last.act);
      } else {
        MovingMessages(w, s, last, d);
      }
    }
  }

  // Without it: a joined client that rejoins

  lemma SecondAcceptArrives(w: World, s: State, d: string, h: string, pdu: Bytes)
    requires d in s.tags && d in w.provs && s.tags[d].registered && s.tags[d].down == []
    requires !s.tags[d].clientJoined && s.tags[d].joinCh.None?
    requires |s.wsDown| == 1 && s.wsDown[0].devEui == d && s.wsDown[0].pdu == h && Hex.Decode(h) == Some(pdu)
    ensures var s' := Next(w, Next(w, s, GatewayDown(true)), Here(d, TagRead));
      s'.lns == s.lns && d in s'.tags && s'.tags[d] == s.tags[d].(joinCh := Some(pdu))
  {
    var routed := Next(w, s, GatewayDown(true));
    assert routed.tags[d] == s.tags[d].(down := [h]);
    StaleJoins.ReadsInto(w, routed, d, h, pdu);
  }

  lemma SavesAndAnnounces(w: World, s: State, d: string)
    requires d in s.tags && d in w.provs && s.tags[d].phase.Holding?
    requires JoinFrames.AcceptResult(w.p, w.provs[d], s.tags[d].phase.nonce, s.tags[d].phase.pdu).Ok?
    ensures var s' := Next(w, Next(w, s, Here(d, SaveAccept)), Here(d, Announce));
      && d in s'.tags && s'.tags[d].clientJoined && s'.tags[d].phase.Idle? && s'.tags[d].joinCh == s.tags[d].joinCh
      && s'.tags[d].sess.devNonce == s.tags[d].sess.devNonce
  {
    OwnAct(w, s, d, SaveAccept);
    OwnAct(w, Next(w, s, Here(d, SaveAccept)), d, Announce);
  }

  lemma GoodAccept(w: World, d: string, n: nat, nonce: nat)
    requires w.Valid() && d in w.provs && JoinFrames.FitsAccept(AcceptOf(w.cfg, n))
    ensures JoinFrames.AcceptResult(w.p, w.provs[d], nonce, AcceptPdu(w, n)).Ok?
  {
    JoinFrames.JoinAcceptRoundTrip(w.p, w.provs[d], nonce, AcceptOf(w.cfg, n));
  }

  /** With two joins under way, a reachable client has joined and finds the second accept in joinCh. */
  lemma ToLeftover(w: World, d: string, joinNonce: nat) returns (s: State)
    requires w.Valid() && d in w.provs && joinNonce + 2 < TWO_TO_24
    requires JoinFrames.FitsAccept(AcceptOf(w.cfg, joinNonce + 1))
    ensures Reachable(w, joinNonce, s) && d in s.tags && s.tags[d].clientJoined && s.tags[d].phase.Idle?
    ensures CanRekey(w, d, s.tags[d])
  {
    var s13 := StaleJoins.ToThirteen(w, d, joinNonce);
    var second := AcceptPdu(w, joinNonce + 2);
    Hex.RoundTrip(second);
    SecondAcceptArrives(w, s13, d, Hex.Encode(second), second);
    ReachTwo(w, joinNonce, s13, GatewayDown(true), Here(d, TagRead));
    var s15 := Next(w, Next(w, s13, GatewayDown(true)), Here(d, TagRead));
    GoodAccept(w, d, joinNonce + 1, 2);
    GoodAccept(w, d, joinNonce + 2, 0);
    SavesAndAnnounces(w, s15, d);
    ReachTwo(w, joinNonce, s15, Here(d, SaveAccept), Here(d, Announce));
    s := Next(w, Next(w, s15, Here(d, SaveAccept)), Here(d, Announce));
  }

  /** So a joined client can rejoin on its connection: some run leads to one whose next join changes its keys. */
  lemma JoinedClientRejoins(w: World, d: string, joinNonce: nat) returns (steps: seq<Step>, more: seq<Step>)
    requires w.Valid() && d in w.provs && joinNonce + 2 < TWO_TO_24
    requires JoinFrames.FitsAccept(AcceptOf(w.cfg, joinNonce + 1))
    ensures var s := Network.Run(w, joinNonce, steps); d in s.tags && s.tags[d].clientJoined && s.tags[d].phase.Idle?
    ensures Rekeys(w, joinNonce, steps, more, d)
  {
    var s := ToLeftover(w, d, joinNonce);
    steps :| s == Network.Run(w, joinNonce, steps);
    RejoinIff(w, joinNonce, steps, s.tags[d], d);
    more := NextJoin(w, d, s.tags[d]);
  }
}
