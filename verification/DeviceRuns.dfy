/** Every run of one tag row: joins, restarts and concurrent uplinks interleaved statement by statement
    (internal/tag/device.go over internal/store/sessions.go). */
module DeviceRuns {
  import opened ByteStrings
  import opened Crypto
  import opened Sessions
  import opened Wrappers
  import DataFrames
  import JoinFrames
  import Keys
  import Wire

  /** An uplink that was built: the session keys it used and its frame counter. */
  datatype Uplink = Uplink(nwk: Key, app: Key, fcnt: nat)
  {
    /** BuildUplink encrypts FPort 0 with the network key and every other port with the application key. */
    function EncryptionKey(fport: byte): Key {
      if fport == 0 then nwk else app
    }
  }

  /** The session HandleDownlink has read; it is `current` while no join has been saved since. */
  datatype Reader = Reader(sess: Session, current: bool)

  /** `pending` holds the DevNonces of join calls still waiting; `inflight` the sessions read by uplinks that have
      not taken their counter yet; `reader` is the read loop between HandleDownlink's read and its store. The last
      four fields are history: uplinks built, nonces issued, nonces a join was completed with, and downlink counters
      accepted for the stored session. */
  datatype State = State(
    sess: Session, pending: set<nat>, inflight: map<nat, Session>, reader: Option<Reader>,
    log: seq<Uplink>, issued: seq<nat>, committed: seq<nat>, accepted: seq<nat>)

  datatype Step =
    | BeginJoin                                  // NextDevNonce
    | FinishJoin(nonce: nat, accept: Bytes)      // CompleteJoin
    | AbandonJoin(nonce: nat)                    // the join call times out
    | ReadSession(worker: nat)                   // first half of BuildUplink: Get
    | TakeCounter(worker: nat, payloadOk: bool)  // second half of BuildUplink: TakeFCntUp, then build
    | ReadForDownlink                            // first half of HandleDownlink: Get
    | TakeDownlink(frame: Bytes)                 // second half: decode, deduplicate, SetFCntDown
    | Restart                                    // everything but the row is lost

  const INITIAL := State(NEW_SESSION, {}, map[], None, [], [], [], [])

  function BuiltUplink(snapshot: Session, fcnt: nat): Option<Uplink> {
    match (ParseDevAddr(snapshot.devAddr), ParseKey(snapshot.nwkSKey), ParseKey(snapshot.appSKey))
    case (Some(_), Some(nwk), Some(app)) => if fcnt < TWO_TO_32 then Some(Uplink(nwk, app, fcnt)) else None
    case _ => None
  }

  function Outdated(reader: Option<Reader>): Option<Reader> {
    match reader
    case None => None
    case Some(r) => Some(r.(current := false))
  }

  /** The effect of one step; a step that is not possible changes nothing. */
  function Next(p: Primitives, prov: JoinFrames.Provisioning, s: State, step: Step): State {
    match step
    case BeginJoin =>
      var sess := AfterNonce(s.sess);
      if sess.devNonce < TWO_TO_16
      then s.(sess := sess, pending := s.pending + {sess.devNonce}, issued := s.issued + [sess.devNonce])
      else s.(sess := sess)
    case FinishJoin(nonce, accept) =>
      if nonce !in s.pending then s
      else
        var s' := s.(pending := s.pending - {nonce});
        (match JoinFrames.AcceptResult(p, prov, nonce, accept)
         case Err(_) => s'
         case Ok(r) =>
           s'.(sess := AfterJoin(s.sess, JoinStateOf(r)), reader := Outdated(s.reader),
               committed := s.committed + [nonce], accepted := []))
    case AbandonJoin(nonce) => s.(pending := s.pending - {nonce})
    case ReadSession(w) =>
      if w in s.inflight || !Readable(s.sess) || !s.sess.joined then s else s.(inflight := s.inflight[w := s.sess])
    case TakeCounter(w, payloadOk) =>
      if w !in s.inflight then s
      else
        var s' := s.(sess := AfterTake(s.sess), inflight := s.inflight - {w});
        var u := BuiltUplink(s.inflight[w], s.sess.fcntUp);
        if payloadOk && u.Some? then s'.(log := s.log + [u.value]) else s'
    case ReadForDownlink =>
      if s.reader.Some? || !Readable(s.sess) || !s.sess.joined then s else s.(reader := Some(Reader(s.sess, true)))
    case TakeDownlink(frame) =>
      if s.reader.None? then s
      else
        var r := s.reader.value;
        if !Accepts(p, r.sess, frame) then s.(reader := None)
        else
          var fcnt := ReadDownlink(p, r.sess, frame).value.fcnt;
          s.(reader := None, sess := AfterDown(s.sess, fcnt),
             accepted := if r.current then s.accepted + [fcnt] else s.accepted)
    case Restart => s.(pending := {}, inflight := map[], reader := None)
  }

  function Run(p: Primitives, prov: JoinFrames.Provisioning, steps: seq<Step>): State {
    if steps == [] then INITIAL
    else Next(p, prov, Run(p, prov, steps[..|steps| - 1]), steps[|steps| - 1])
  }

  /** The step reaches SaveJoinResult: the join call is waiting and its accept is valid. */
  predicate SavesJoin(p: Primitives, prov: JoinFrames.Provisioning, s: State, step: Step) {
    step.FinishJoin? && step.nonce in s.pending && JoinFrames.AcceptResult(p, prov, step.nonce, step.accept).Ok?
  }

  /** No join is saved while an uplink stands between reading the session and taking its counter. */
  predicate SafeStep(p: Primitives, prov: JoinFrames.Provisioning, s: State, step: Step) {
    SavesJoin(p, prov, s, step) ==> s.inflight == map[]
  }

  predicate SafeRun(p: Primitives, prov: JoinFrames.Provisioning, steps: seq<Step>) {
    steps == []
    || (&& SafeRun(p, prov, steps[..|steps| - 1])
        && SafeStep(p, prov, Run(p, prov, steps[..|steps| - 1]), steps[|steps| - 1]))
  }

  /** No two uplinks were encrypted under the same key with the same counter, whatever their ports. */
  ghost predicate NoReuse(log: seq<Uplink>) {
    forall i, j, f: byte, g: byte | 0 <= i < j < |log| ::
      log[i].fcnt == log[j].fcnt ==> log[i].EncryptionKey(f) != log[j].EncryptionKey(g)
  }

  // Keys read back to the join they came from

  /** Both keys were derived under this AppKey, from one join with DevNonce `nonce`. */
  ghost predicate DerivedWith(p: Primitives, appKey: Key, nwk: Key, app: Key, nonce: nat) {
    && Keys.KeyType(p, appKey, nwk) == Keys.NWK_SKEY
    && Keys.KeyType(p, appKey, app) == Keys.APP_SKEY
    && p.aesInverse(appKey, app)[1..] == p.aesInverse(appKey, nwk)[1..]
    && Keys.KeyDevNonce(p, appKey, app) == nonce
  }

  ghost predicate Derived(p: Primitives, appKey: Key, nwk: Key, app: Key) {
    DerivedWith(p, appKey, nwk, app, Keys.KeyDevNonce(p, appKey, app))
  }

  lemma AcceptedKeys(p: Primitives, prov: JoinFrames.Provisioning, nonce: nat, accept: Bytes)
    requires p.Lawful() && nonce < TWO_TO_16
    requires JoinFrames.AcceptResult(p, prov, nonce, accept).Ok?
    ensures var k := JoinFrames.AcceptResult(p, prov, nonce, accept).value.keys;
      DerivedWith(p, prov.appKey, k.nwk, k.app, nonce)
  {
    var r := JoinFrames.AcceptResult(p, prov, nonce, accept).value;
    var phy := Wire.DecodePhy(accept).value;
    JoinFrames.DecodedJoinNonceFits(p.aes(prov.appKey, phy.payload.bytes + phy.mic)[..12]);
    Keys.KeyOrigin(p, Keys.NWK_SKEY, prov.appKey, r.accept.netId, r.accept.joinNonce, nonce);
    Keys.KeyOrigin(p, Keys.APP_SKEY, prov.appKey, r.accept.netId, r.accept.joinNonce, nonce);
  }

  /** Uplinks with a common encryption key, on whatever ports, have the same application key. */
  lemma CommonKey(p: Primitives, appKey: Key, u: Uplink, v: Uplink, f: byte, g: byte)
    requires p.Lawful()
    requires Derived(p, appKey, u.nwk, u.app) && Derived(p, appKey, v.nwk, v.app)
    requires u.EncryptionKey(f) == v.EncryptionKey(g)
    ensures u.app == v.app
  {
    if f == 0 {
      var a, b := p.aesInverse(appKey, u.app), p.aesInverse(appKey, v.app);
      assert a == [a[0]] + a[1..] && b == [b[0]] + b[1..];
      assert p.aes(appKey, a) == u.app && p.aes(appKey, b) == v.app;
    }
  }

  // The inductive invariant

  ghost predicate SessionKeys(p: Primitives, prov: JoinFrames.Provisioning, s: State, nwk: Key, app: Key) {
    && Derived(p, prov.appKey, nwk, app)
    && Keys.KeyDevNonce(p, prov.appKey, app) <= s.sess.devNonce
    && Keys.KeyDevNonce(p, prov.appKey, app) !in s.pending
  }

  /** The stored session, when there is one, holds keys derived from a nonce that no waiting join has. */
  ghost predicate GoodSession(p: Primitives, prov: JoinFrames.Provisioning, s: State) {
    s.sess.joined ==>
      && ParseDevAddr(s.sess.devAddr).Some?
      && ParseKey(s.sess.nwkSKey).Some? && ParseKey(s.sess.appSKey).Some?
      && SessionKeys(p, prov, s, ParseKey(s.sess.nwkSKey).value, ParseKey(s.sess.appSKey).value)
  }

  ghost predicate GoodNonces(s: State) {
    && (forall n <- s.pending :: 1 <= n <= s.sess.devNonce && n < TWO_TO_16 && n in s.issued && n !in s.committed)
    && (forall n <- s.committed :: n in s.issued)
    && (forall i, j :: 0 <= i < j < |s.committed| ==> s.committed[i] != s.committed[j])
    && (forall i :: 0 <= i < |s.issued| ==> 1 <= s.issued[i] < TWO_TO_16 && s.issued[i] <= s.sess.devNonce)
    && (forall i, j :: 0 <= i < j < |s.issued| ==> s.issued[i] < s.issued[j])
  }

  /** Built uplinks used derived keys; those under the stored session's key used counters below the stored one. */
  ghost predicate GoodLog(p: Primitives, prov: JoinFrames.Provisioning, s: State) {
    forall u <- s.log ::
      && SessionKeys(p, prov, s, u.nwk, u.app) && u.fcnt < TWO_TO_32
      && (s.sess.joined && ParseKey(s.sess.appSKey) == Some(u.app) ==> u.fcnt < s.sess.fcntUp)
  }

  /** Uplinks about to take a counter hold the keys of the stored session. */
  ghost predicate FreshReaders(s: State) {
    forall w <- s.inflight ::
      && s.sess.joined
      && s.inflight[w].devAddr == s.sess.devAddr
      && s.inflight[w].nwkSKey == s.sess.nwkSKey && s.inflight[w].appSKey == s.sess.appSKey
  }

  ghost predicate Invariant(p: Primitives, prov: JoinFrames.Provisioning, s: State) {
    GoodSession(p, prov, s) && GoodNonces(s) && GoodLog(p, prov, s) && FreshReaders(s) && NoReuse(s.log)
  }

  lemma FinishJoinKeepsInvariant(p: Primitives, prov: JoinFrames.Provisioning, s: State, step: Step)
    requires p.Lawful() && Invariant(p, prov, s) && SavesJoin(p, prov, s, step) && s.inflight == map[]
    ensures Invariant(p, prov, Next(p, prov, s, step))
  {
    AcceptedKeys(p, prov, step.nonce, step.accept);
    var k := JoinFrames.AcceptResult(p, prov, step.nonce, step.accept).value;
    ParseDevAddrRoundTrip(k.accept.devAddr);
    ParseKeyRoundTrip(k.keys.nwk);
    ParseKeyRoundTrip(k.keys.app);
  }

  lemma RejectedJoinKeepsInvariant(p: Primitives, prov: JoinFrames.Provisioning, s: State, step: Step)
    requires Invariant(p, prov, s) && step.FinishJoin? && !SavesJoin(p, prov, s, step)
    ensures Invariant(p, prov, Next(p, prov, s, step))
  {
  }

  lemma TakeCounterKeepsInvariant(p: Primitives, prov: JoinFrames.Provisioning, s: State, w: nat, payloadOk: bool)
    requires p.Lawful() && Invariant(p, prov, s)
    ensures Invariant(p, prov, Next(p, prov, s, TakeCounter(w, payloadOk)))
  {
    var s' := Next(p, prov, s, TakeCounter(w, payloadOk));
    if |s'.log| > |s.log| {
      var v := s'.log[|s.log|];
      forall i, f: byte, g: byte | 0 <= i < |s.log| && s.log[i].fcnt == v.fcnt
        ensures s.log[i].EncryptionKey(f) != v.EncryptionKey(g)
      {
        assert s.log[i] in s.log;
        if s.log[i].EncryptionKey(f) == v.EncryptionKey(g) {
          CommonKey(p, prov.appKey, s.log[i], v, f, g);
        }
      }
    }
  }

  lemma BeginKeepsNonces(p: Primitives, prov: JoinFrames.Provisioning, s: State)
    requires GoodNonces(s)
    ensures GoodNonces(Next(p, prov, s, BeginJoin))
  {
  }

  /** Only the DevNonce and what waits for it have grown. */
  lemma NewNonceKeepsKeys(p: Primitives, prov: JoinFrames.Provisioning, s: State, s': State)
    requires GoodSession(p, prov, s) && GoodLog(p, prov, s)
    requires s'.sess == AfterNonce(s.sess) && s'.log == s.log
    requires s'.pending == s.pending || s'.pending == s.pending + {s'.sess.devNonce}
    ensures GoodSession(p, prov, s') && GoodLog(p, prov, s')
  {
    forall u <- s'.log ensures SessionKeys(p, prov, s', u.nwk, u.app) {
      assert SessionKeys(p, prov, s, u.nwk, u.app);
    }
  }

  lemma BeginJoinKeepsInvariant(p: Primitives, prov: JoinFrames.Provisioning, s: State)
    requires Invariant(p, prov, s)
    ensures Invariant(p, prov, Next(p, prov, s, BeginJoin))
  {
    BeginKeepsNonces(p, prov, s);
    NewNonceKeepsKeys(p, prov, s, Next(p, prov, s, BeginJoin));
  }

  lemma TakeDownlinkKeepsInvariant(p: Primitives, prov: JoinFrames.Provisioning, s: State, frame: Bytes)
    requires Invariant(p, prov, s)
    ensures Invariant(p, prov, Next(p, prov, s, TakeDownlink(frame)))
  {
    var s' := Next(p, prov, s, TakeDownlink(frame));
    assert s' == s.(sess := AfterDown(s.sess, s'.sess.fcntDown), reader := s'.reader, accepted := s'.accepted);
  }

  lemma OtherStepsKeepInvariant(p: Primitives, prov: JoinFrames.Provisioning, s: State, step: Step)
    requires Invariant(p, prov, s) && (step.AbandonJoin? || step.ReadSession? || step.ReadForDownlink? || step.Restart?)
    ensures Invariant(p, prov, Next(p, prov, s, step))
  {
  }

  lemma StepKeepsInvariant(p: Primitives, prov: JoinFrames.Provisioning, s: State, step: Step)
    requires p.Lawful() && Invariant(p, prov, s) && SafeStep(p, prov, s, step)
    ensures Invariant(p, prov, Next(p, prov, s, step))
  {
    match step
    case FinishJoin(_, _) =>
      if SavesJoin(p, prov, s, step) {
        FinishJoinKeepsInvariant(p, prov, s, step);
      } else {
        RejectedJoinKeepsInvariant(p, prov, s, step);
      }
    case TakeCounter(w, payloadOk) => TakeCounterKeepsInvariant(p, prov, s, w, payloadOk);
    case BeginJoin => BeginJoinKeepsInvariant(p, prov, s);
    case TakeDownlink(frame) => TakeDownlinkKeepsInvariant(p, prov, s, frame);
    case _ => OtherStepsKeepInvariant(p, prov, s, step);
  }

  lemma {:induction false} SafeRunsKeepInvariant(p: Primitives, prov: JoinFrames.Provisioning, steps: seq<Step>)
    requires p.Lawful() && SafeRun(p, prov, steps)
    ensures Invariant(p, prov, Run(p, prov, steps))
  {
    if steps != [] {
      var before := steps[..|steps| - 1];
      SafeRunsKeepInvariant(p, prov, before);
      StepKeepsInvariant(p, prov, Run(p, prov, before), steps[|steps| - 1]);
    }
  }

  /** Over every run in which no join is saved between an uplink's read and take, no (key, counter) pair is used
      twice. */
  lemma NoCounterReuse(p: Primitives, prov: JoinFrames.Provisioning, steps: seq<Step>)
    requires p.Lawful() && SafeRun(p, prov, steps)
    ensures NoReuse(Run(p, prov, steps).log)
  {
    SafeRunsKeepInvariant(p, prov, steps);
  }

  /** What that is for: over every such run no two keystream blocks, of one uplink or of two, are produced from the
      same key and the same input block, whatever ports and addresses the uplinks carry. */
  lemma KeystreamNeverRepeats(
    p: Primitives, prov: JoinFrames.Provisioning, steps: seq<Step>,
    i: nat, f: byte, a: Wire.DevAddr, x: nat, j: nat, g: byte, b: Wire.DevAddr, y: nat)
    requires p.Lawful() && SafeRun(p, prov, steps)
    requires i < |Run(p, prov, steps).log| && j < |Run(p, prov, steps).log| && x < 255 && y < 255 && (i, x) != (j, y)
    ensures var u, v := Run(p, prov, steps).log[i], Run(p, prov, steps).log[j];
      u.EncryptionKey(f) == v.EncryptionKey(g) ==> InputBlock(u, a, x) != InputBlock(v, b, y)
  {
    var log := Run(p, prov, steps).log;
    BuiltCounters(p, prov, steps);
    NoCounterReuse(p, prov, steps);
    BlocksDiffer(log[i], f, a, x, log[j], g, b, y, i == j);
  }

  function InputBlock(u: Uplink, devAddr: Wire.DevAddr, i: nat): Block {
    DataFrames.EncryptionBlock(DataFrames.UP, devAddr, u.fcnt, i)
  }

  lemma BuiltCounters(p: Primitives, prov: JoinFrames.Provisioning, steps: seq<Step>)
    requires p.Lawful() && SafeRun(p, prov, steps)
    ensures forall i :: 0 <= i < |Run(p, prov, steps).log| ==> Run(p, prov, steps).log[i].fcnt < TWO_TO_32
  {
    SafeRunsKeepInvariant(p, prov, steps);
    var log := Run(p, prov, steps).log;
    assert forall i :: 0 <= i < |log| ==> log[i] in log;
  }

  lemma BlocksDiffer(
    u: Uplink, f: byte, a: Wire.DevAddr, x: nat, v: Uplink, g: byte, b: Wire.DevAddr, y: nat, same: bool)
    requires u.fcnt < TWO_TO_32 && v.fcnt < TWO_TO_32 && x < 255 && y < 255
    requires if same then x != y else u.EncryptionKey(f) == v.EncryptionKey(g) ==> u.fcnt != v.fcnt
    ensures u.EncryptionKey(f) == v.EncryptionKey(g) ==> InputBlock(u, a, x) != InputBlock(v, b, y)
  {
    DataFrames.EncryptionBlockInjective(DataFrames.UP, a, u.fcnt, x, DataFrames.UP, b, v.fcnt, y);
  }

  // The hypothesis is needed, and exactly when

  lemma RunAppend(p: Primitives, prov: JoinFrames.Provisioning, steps: seq<Step>, step: Step)
    ensures Run(p, prov, steps + [step]) == Next(p, prov, Run(p, prov, steps), step)
  {
    assert (steps + [step])[..|steps|] == steps;
  }

  /** Worker `w` stays between its read and its take, and no further join is saved. */
  predicate Between(p: Primitives, prov: JoinFrames.Provisioning, before: seq<Step>, mid: seq<Step>, w: nat) {
    mid == []
    || (var earlier, last := mid[..|mid| - 1], mid[|mid| - 1];
        && Between(p, prov, before, earlier, w)
        && !last.Restart? && !(last.TakeCounter? && last.worker == w)
        && !SavesJoin(p, prov, Run(p, prov, before + earlier), last))
  }

  /** The counters taken in `mid`. */
  function Takes(p: Primitives, prov: JoinFrames.Provisioning, before: seq<Step>, mid: seq<Step>): nat {
    if mid == [] then 0
    else
      var earlier, last := mid[..|mid| - 1], mid[|mid| - 1];
      Takes(p, prov, before, earlier)
      + if last.TakeCounter? && last.worker in Run(p, prov, before + earlier).inflight then 1 else 0
  }

  /** The session stored in `s` has sent the frame with counter `fcnt`. */
  ghost predicate HasSent(s: State, fcnt: nat) {
    exists u <- s.log :: u.fcnt == fcnt && ParseKey(s.sess.appSKey) == Some(u.app)
  }

  /** Since the join was saved in `s`, `taken` counters have been taken and worker `w` has kept what it had read. */
  ghost predicate SinceJoin(s: State, t: State, w: nat, taken: nat) {
    && w in s.inflight && w in t.inflight && t.inflight[w] == s.inflight[w]
    && t.sess.fcntUp == taken
    && s.log <= t.log && (forall i :: |s.log| <= i < |t.log| ==> t.log[i].fcnt < taken)
  }

  lemma StepSinceJoin(p: Primitives, prov: JoinFrames.Provisioning, s: State, t: State, w: nat, taken: nat, step: Step)
    requires SinceJoin(s, t, w, taken)
    requires !step.Restart? && !(step.TakeCounter? && step.worker == w) && !SavesJoin(p, prov, t, step)
    ensures SinceJoin(s, Next(p, prov, t, step), w,
                      taken + if step.TakeCounter? && step.worker in t.inflight then 1 else 0)
  {
  }

  lemma {:induction false} StepsSinceJoin(
    p: Primitives, prov: JoinFrames.Provisioning, s: State, before: seq<Step>, mid: seq<Step>, w: nat)
    requires SinceJoin(s, Run(p, prov, before), w, 0) && Between(p, prov, before, mid, w)
    ensures SinceJoin(s, Run(p, prov, before + mid), w, Takes(p, prov, before, mid))
  {
    if mid == [] {
      assert before + mid == before;
    } else {
      var earlier, last := mid[..|mid| - 1], mid[|mid| - 1];
      StepsSinceJoin(p, prov, s, before, earlier, w);
      assert before + mid == (before + earlier) + [last];
      RunAppend(p, prov, before + earlier, last);
      StepSinceJoin(p, prov, s, Run(p, prov, before + earlier), w, Takes(p, prov, before, earlier), last);
    }
  }

  /** The uplink a worker builds when its session has been replaced meanwhile. */
  lemma LateTake(p: Primitives, prov: JoinFrames.Provisioning, s: State, t: State, w: nat, taken: nat)
    requires Invariant(p, prov, s) && SinceJoin(s, t, w, taken) && taken < TWO_TO_32
    ensures var v := BuiltUplink(s.inflight[w], taken);
      && v.Some? && v.value.fcnt == taken && ParseKey(s.sess.appSKey) == Some(v.value.app)
      && Derived(p, prov.appKey, v.value.nwk, v.value.app)
      && Next(p, prov, t, TakeCounter(w, true)).log == t.log + [v.value]
  {
  }

  lemma LateReuse(p: Primitives, prov: JoinFrames.Provisioning, s: State, t: State, v: Uplink)
    requires p.Lawful() && Invariant(p, prov, s)
    requires s.log <= t.log && (forall i :: |s.log| <= i < |t.log| ==> t.log[i].fcnt < v.fcnt)
    requires ParseKey(s.sess.appSKey) == Some(v.app) && Derived(p, prov.appKey, v.nwk, v.app)
    ensures NoReuse(t.log + [v]) <==> NoReuse(t.log) && !HasSent(s, v.fcnt)
  {
    var log, n := t.log + [v], |t.log|;
    if HasSent(s, v.fcnt) {
      var u :| u in s.log && u.fcnt == v.fcnt && ParseKey(s.sess.appSKey) == Some(u.app);
      var i :| 0 <= i < |s.log| && s.log[i] == u;
      var port: byte := 1;
      assert log[i].EncryptionKey(port) == log[n].EncryptionKey(port);
    } else {
      forall i, f: byte, g: byte | 0 <= i < n && t.log[i].fcnt == v.fcnt
        ensures t.log[i].EncryptionKey(f) != v.EncryptionKey(g)
      {
        assert t.log[i] == s.log[i] && s.log[i] in s.log;
        if s.log[i].EncryptionKey(f) == v.EncryptionKey(g) {
          CommonKey(p, prov.appKey, s.log[i], v, f, g);
        }
      }
    }
    assert log[..n] == t.log;
    if NoReuse(log) {
      forall i, j, f: byte, g: byte | 0 <= i < j < n && t.log[i].fcnt == t.log[j].fcnt
        ensures t.log[i].EncryptionKey(f) != t.log[j].EncryptionKey(g)
      {
        assert log[i] == t.log[i] && log[j] == t.log[j];
      }
    }
  }

  /** When a join is saved between the two halves of an uplink, with anything going on between the join and the
      take: the uplink reuses a (key, counter) pair exactly when the replaced session had sent the counter that the
      new one has reached, which is the number of counters taken since the join. */
  lemma JoinBetweenReadAndTake(
    p: Primitives, prov: JoinFrames.Provisioning, steps: seq<Step>, join: Step, mid: seq<Step>, w: nat)
    requires p.Lawful() && SafeRun(p, prov, steps) && w in Run(p, prov, steps).inflight
    requires SavesJoin(p, prov, Run(p, prov, steps), join)
    requires Between(p, prov, steps + [join], mid, w) && Takes(p, prov, steps + [join], mid) < TWO_TO_32
    ensures var all := steps + [join] + mid;
      && (NoReuse(Run(p, prov, all + [TakeCounter(w, true)]).log) <==>
            && NoReuse(Run(p, prov, all).log)
            && !HasSent(Run(p, prov, steps), Takes(p, prov, steps + [join], mid)))
  {
    var s, all, taken := Run(p, prov, steps), steps + [join] + mid, Takes(p, prov, steps + [join], mid);
    SafeRunsKeepInvariant(p, prov, steps);
    RunAppend(p, prov, steps, join);
    StepsSinceJoin(p, prov, s, steps + [join], mid, w);
    RunAppend(p, prov, all, TakeCounter(w, true));
    LateTake(p, prov, s, Run(p, prov, all), w, taken);
    LateReuse(p, prov, s, Run(p, prov, all), BuiltUplink(s.inflight[w], taken).value);
  }

  /** A concrete run that breaks the discipline: join, send, then rejoin while a second uplink is half done. */
  function JoinSendReread(accept: Bytes): seq<Step> {
    [BeginJoin, FinishJoin(1, accept), ReadSession(0), TakeCounter(0, true), BeginJoin, ReadSession(1)]
  }

  lemma RunOfSix(p: Primitives, prov: JoinFrames.Provisioning, a: Step, b: Step, c: Step, d: Step, e: Step, f: Step)
    ensures Run(p, prov, [a, b, c, d, e, f])
         == Next(p, prov, Next(p, prov, Next(p, prov,
              Next(p, prov, Next(p, prov, Next(p, prov, INITIAL, a), b), c), d), e), f)
  {
    assert [a, b, c, d, e, f] == [a, b, c, d, e] + [f];
    assert [a, b, c, d, e] == [a, b, c, d] + [e];
    assert [a, b, c, d] == [a, b, c] + [d];
    assert [a, b, c] == [a, b] + [c];
    assert [a, b] == [a] + [b];
    assert [a] == [] + [a];
    RunAppend(p, prov, [a, b, c, d, e], f);
    RunAppend(p, prov, [a, b, c, d], e);
    RunAppend(p, prov, [a, b, c], d);
    RunAppend(p, prov, [a, b], c);
    RunAppend(p, prov, [a], b);
    RunAppend(p, prov, [], a);
  }

  lemma ReuseWithoutTheHypothesis(p: Primitives, prov: JoinFrames.Provisioning)
    requires p.Lawful()
    ensures var accept := JoinFrames.JoinAcceptFrame(
        p, prov.appKey, JoinFrames.Accept(1, [0, 0, 1], [1, 2, 3, 4], 0, 0, 1));
      !NoReuse(Run(p, prov, JoinSendReread(accept) + [FinishJoin(2, accept)] + [TakeCounter(1, true)]).log)
  {
    var a := JoinFrames.Accept(1, [0, 0, 1], [1, 2, 3, 4], 0, 0, 1);
    var accept := JoinFrames.JoinAcceptFrame(p, prov.appKey, a);
    JoinFrames.JoinAcceptRoundTrip(p, prov, 1, a);
    JoinFrames.JoinAcceptRoundTrip(p, prov, 2, a);
    AcceptReuse(p, prov, accept);
  }

  lemma AcceptReuse(p: Primitives, prov: JoinFrames.Provisioning, accept: Bytes)
    requires p.Lawful()
    requires JoinFrames.AcceptResult(p, prov, 1, accept).Ok? && JoinFrames.AcceptResult(p, prov, 2, accept).Ok?
    ensures !NoReuse(Run(p, prov, JoinSendReread(accept) + [FinishJoin(2, accept)] + [TakeCounter(1, true)]).log)
  {
    var r := JoinFrames.AcceptResult(p, prov, 1, accept).value;
    ParseDevAddrRoundTrip(r.accept.devAddr);
    ParseKeyRoundTrip(r.keys.nwk);
    ParseKeyRoundTrip(r.keys.app);
    var joined := AfterJoin(NEW_SESSION.(devNonce := 1), JoinStateOf(r));
    var first := Uplink(r.keys.nwk, r.keys.app, 0);
    var s6 := StateOfSix(p, prov, accept, joined, first);
    var log := LastTwoSteps(p, prov, accept, s6, first);
    var port: byte := 1;
    assert log[0].EncryptionKey(port) == log[1].EncryptionKey(port);
    var steps := JoinSendReread(accept);
    RunAppend(p, prov, steps, FinishJoin(2, accept));
    RunAppend(p, prov, steps + [FinishJoin(2, accept)], TakeCounter(1, true));
  }

  lemma LastTwoSteps(p: Primitives, prov: JoinFrames.Provisioning, accept: Bytes, s6: State,
      first: Uplink) returns (log: seq<Uplink>)
    requires JoinFrames.AcceptResult(p, prov, 2, accept).Ok?
    requires s6.pending == {2} && s6.log == [first] && s6.inflight == map[1 := s6.sess]
    requires BuiltUplink(s6.sess, 0) == Some(first)
    ensures log == Next(p, prov, Next(p, prov, s6, FinishJoin(2, accept)), TakeCounter(1, true)).log == [first, first]
  {
    var s7 := Next(p, prov, s6, FinishJoin(2, accept));
    assert s7.sess.fcntUp == 0 && s7.inflight == s6.inflight && s7.log == s6.log;
    log := Next(p, prov, s7, TakeCounter(1, true)).log;
  }

  lemma StateOfSix(p: Primitives, prov: JoinFrames.Provisioning, accept: Bytes, joined: Session,
      first: Uplink) returns (s6: State)
    requires JoinFrames.AcceptResult(p, prov, 1, accept).Ok?
    requires joined == AfterJoin(
      NEW_SESSION.(devNonce := 1), JoinStateOf(JoinFrames.AcceptResult(p, prov, 1, accept).value))
    requires BuiltUplink(joined, 0) == Some(first)
    ensures s6 == Run(p, prov, JoinSendReread(accept))
    ensures s6.pending == {2} && s6.log == [first] && s6.inflight == map[1 := s6.sess]
    ensures s6.sess == joined.(fcntUp := 1, devNonce := 2)
  {
    var s1 := Next(p, prov, INITIAL, BeginJoin);
    assert s1 == State(NEW_SESSION.(devNonce := 1), {1}, map[], None, [], [1], [], []);
    var s2 := Next(p, prov, s1, FinishJoin(1, accept));
    assert s2.pending == {};
    assert s2 == State(joined, {}, map[], None, [], [1], [1], []);
    var s3 := Next(p, prov, s2, ReadSession(0));
    assert s3 == s2.(inflight := map[0 := joined]);
    var s4 := Next(p, prov, s3, TakeCounter(0, true));
    assert s4.inflight == map[];
    assert s4 == State(joined.(fcntUp := 1), {}, map[], None, [first], [1], [1], []);
    var s5 := Next(p, prov, s4, BeginJoin);
    assert s5.pending == {2};
    s6 := Next(p, prov, s5, ReadSession(1));
    RunOfSix(p, prov, BeginJoin, FinishJoin(1, accept), ReadSession(0), TakeCounter(0, true), BeginJoin,
        ReadSession(1));
  }

  // DevNonces

  lemma FinishKeepsNonces(p: Primitives, prov: JoinFrames.Provisioning, s: State, nonce: nat, accept: Bytes)
    requires GoodNonces(s)
    ensures GoodNonces(Next(p, prov, s, FinishJoin(nonce, accept)))
  {
  }

  lemma OthersKeepNonces(p: Primitives, prov: JoinFrames.Provisioning, s: State, step: Step)
    requires GoodNonces(s) && !step.BeginJoin? && !step.FinishJoin?
    ensures GoodNonces(Next(p, prov, s, step))
  {
    var s' := Next(p, prov, s, step);
    assert s'.pending <= s.pending && s'.issued == s.issued && s'.committed == s.committed;
    assert s'.sess.devNonce == s.sess.devNonce;
  }

  lemma StepKeepsNonces(p: Primitives, prov: JoinFrames.Provisioning, s: State, step: Step)
    requires GoodNonces(s)
    ensures GoodNonces(Next(p, prov, s, step))
  {
    if step.BeginJoin? {
      BeginKeepsNonces(p, prov, s);
    } else if step.FinishJoin? {
      FinishKeepsNonces(p, prov, s, step.nonce, step.accept);
    } else {
      OthersKeepNonces(p, prov, s, step);
    }
  }

  lemma {:induction false} NoncesStayGood(p: Primitives, prov: JoinFrames.Provisioning, steps: seq<Step>)
    ensures GoodNonces(Run(p, prov, steps))
  {
    if steps != [] {
      NoncesStayGood(p, prov, steps[..|steps| - 1]);
      StepKeepsNonces(p, prov, Run(p, prov, steps[..|steps| - 1]), steps[|steps| - 1]);
    }
  }

  /** Over every run, with or without restarts: the nonces handed out are strictly increasing within 1..65535, the row
      holds at least the largest, and each join that completes used a nonce of its own. */
  lemma NonceAllocation(p: Primitives, prov: JoinFrames.Provisioning, steps: seq<Step>)
    ensures var s := Run(p, prov, steps);
      && (forall i, j :: 0 <= i < j < |s.issued| ==> s.issued[i] < s.issued[j])
      && (forall n <- s.issued :: 1 <= n < TWO_TO_16 && n <= s.sess.devNonce)
      && (forall n <- s.committed :: n in s.issued)
      && (forall i, j :: 0 <= i < j < |s.committed| ==> s.committed[i] != s.committed[j])
  {
    NoncesStayGood(p, prov, steps);
  }

  lemma StepAfterLastNonce(p: Primitives, prov: JoinFrames.Provisioning, s: State, step: Step)
    requires s.sess.devNonce >= TWO_TO_16 - 1
    ensures Next(p, prov, s, step).issued == s.issued && Next(p, prov, s, step).sess.devNonce >= s.sess.devNonce
  {
  }

  /** Once the last nonce is gone no join-request is ever built again. */
  lemma {:induction false} NoncesRunOut(p: Primitives, prov: JoinFrames.Provisioning, steps: seq<Step>, more: seq<Step>)
    requires Run(p, prov, steps).sess.devNonce >= TWO_TO_16 - 1
    ensures Run(p, prov, steps + more).issued == Run(p, prov, steps).issued
    ensures Run(p, prov, steps + more).sess.devNonce >= Run(p, prov, steps).sess.devNonce
  {
    if more == [] {
      assert steps + more == steps;
    } else {
      var before, last := more[..|more| - 1], more[|more| - 1];
      NoncesRunOut(p, prov, steps, before);
      assert steps + more == (steps + before) + [last];
      RunAppend(p, prov, steps + before, last);
      StepAfterLastNonce(p, prov, Run(p, prov, steps + before), last);
    }
  }

  /** Uplinks built or half done, and downlinks accepted or half handled. */
  function UplinkWork(s: State): nat {
    |s.log| + |s.inflight|
  }

  function DownlinkWork(s: State): nat {
    |s.accepted| + if s.reader.Some? then 1 else 0
  }

  /** What is under way in `s'` was under way in `s`, and no more gets done than what was. */
  predicate NothingBegun(s: State, s': State) {
    && (forall w <- s'.inflight :: w in s.inflight && s'.inflight[w] == s.inflight[w])
    && (s'.reader.Some? ==> s.reader.Some? && s'.reader.value.sess == s.reader.value.sess)
    && UplinkWork(s') <= UplinkWork(s) && DownlinkWork(s') <= DownlinkWork(s)
  }

  lemma TakeOnDeadRow(p: Primitives, prov: JoinFrames.Provisioning, s: State, w: nat, payloadOk: bool)
    requires s.sess.devNonce >= TWO_TO_16 && w in s.inflight
    ensures var s' := Next(p, prov, s, TakeCounter(w, payloadOk));
      s'.sess.devNonce >= TWO_TO_16 && NothingBegun(s, s')
  {
    var s' := Next(p, prov, s, TakeCounter(w, payloadOk));
    assert s'.inflight == s.inflight - {w};
    assert s.inflight.Keys == (s.inflight - {w}).Keys + {w};
    assert |s'.log| <= |s.log| + 1;
  }

  lemma OtherStepOnDeadRow(p: Primitives, prov: JoinFrames.Provisioning, s: State, step: Step)
    requires s.sess.devNonce >= TWO_TO_16 && !step.TakeCounter?
    ensures var s' := Next(p, prov, s, step); s'.sess.devNonce >= TWO_TO_16 && NothingBegun(s, s')
  {
  }

  lemma StepOnDeadRow(p: Primitives, prov: JoinFrames.Provisioning, s: State, step: Step)
    requires s.sess.devNonce >= TWO_TO_16
    ensures var s' := Next(p, prov, s, step); s'.sess.devNonce >= TWO_TO_16 && NothingBegun(s, s')
  {
    if !step.TakeCounter? {
      OtherStepOnDeadRow(p, prov, s, step);
    } else if step.worker in s.inflight {
      TakeOnDeadRow(p, prov, s, step.worker, step.payloadOk);
    }
  }

  predicate Dead(s: State, s': State) {
    s'.sess.devNonce >= TWO_TO_16 && NothingBegun(s, s')
  }

  lemma DeadRowStaysDead(p: Primitives, prov: JoinFrames.Provisioning, s: State, t: State, step: Step, u: State)
    requires Dead(s, t) && u == Next(p, prov, t, step)
    ensures Dead(s, u)
  {
    StepOnDeadRow(p, prov, t, step);
  }

  lemma DeadRowAcceptsNothing(p: Primitives, sess: Session)
    requires sess.devNonce >= TWO_TO_16
    ensures forall frame :: !Accepts(p, sess, frame)
  {
  }

  lemma {:induction false} DeadRowBeginsNothing(
    p: Primitives, prov: JoinFrames.Provisioning, steps: seq<Step>, more: seq<Step>)
    requires Dead(Run(p, prov, steps), Run(p, prov, steps))
    ensures Dead(Run(p, prov, steps), Run(p, prov, steps + more))
  {
    if more == [] {
      assert steps + more == steps;
    } else {
      var before, last := more[..|more| - 1], more[|more| - 1];
      DeadRowBeginsNothing(p, prov, steps, before);
      assert steps + more == (steps + before) + [last];
      RunAppend(p, prov, steps + before, last);
      DeadRowStaysDead(p, prov, Run(p, prov, steps), Run(p, prov, steps + before), last, Run(p, prov, steps + more));
    }
  }

  /** One more attempt makes the row unreadable: from then on only what was already half done is finished; no
      uplink and no handling of a downlink begins. */
  lemma ExhaustedRowIsDead(p: Primitives, prov: JoinFrames.Provisioning, steps: seq<Step>, more: seq<Step>)
    requires Run(p, prov, steps).sess.devNonce >= TWO_TO_16
    ensures var s, s' := Run(p, prov, steps), Run(p, prov, steps + more);
      Dead(s, s') && forall frame :: !Accepts(p, s'.sess, frame)
  {
    DeadRowBeginsNothing(p, prov, steps, more);
    DeadRowAcceptsNothing(p, Run(p, prov, steps + more).sess);
  }

  // Downlink counters

  /** No join is saved while a downlink stands between reading the session and storing its counter. */
  predicate CalmStep(p: Primitives, prov: JoinFrames.Provisioning, s: State, step: Step) {
    SavesJoin(p, prov, s, step) ==> s.reader.None?
  }

  predicate CalmRun(p: Primitives, prov: JoinFrames.Provisioning, steps: seq<Step>) {
    steps == []
    || (&& CalmRun(p, prov, steps[..|steps| - 1])
        && CalmStep(p, prov, Run(p, prov, steps[..|steps| - 1]), steps[|steps| - 1]))
  }

  /** The stored counter is that of the last downlink accepted for the session, and none before it was larger. */
  ghost predicate GoodDown(s: State) {
    && (s.accepted == [] ==> s.sess.fcntDown == 0)
    && (s.accepted != [] ==> s.sess.fcntDown == s.accepted[|s.accepted| - 1])
    && (forall i, j :: 0 <= i <= j < |s.accepted| ==> s.accepted[i] <= s.accepted[j])
  }

  ghost predicate GoodReader(s: State) {
    s.reader.Some? ==> s.reader.value.current && s.reader.value.sess.fcntDown == s.sess.fcntDown
  }

  lemma DownlinkKeepsDown(p: Primitives, prov: JoinFrames.Provisioning, s: State, frame: Bytes)
    requires GoodDown(s) && GoodReader(s)
    ensures GoodDown(Next(p, prov, s, TakeDownlink(frame))) && GoodReader(Next(p, prov, s, TakeDownlink(frame)))
  {
  }

  lemma StepKeepsDown(p: Primitives, prov: JoinFrames.Provisioning, s: State, step: Step)
    requires GoodDown(s) && GoodReader(s) && CalmStep(p, prov, s, step)
    ensures GoodDown(Next(p, prov, s, step)) && GoodReader(Next(p, prov, s, step))
  {
    if step.TakeDownlink? {
      DownlinkKeepsDown(p, prov, s, step.frame);
    } else {
      OthersKeepDown(p, prov, s, step);
    }
  }

  lemma OthersKeepDown(p: Primitives, prov: JoinFrames.Provisioning, s: State, step: Step)
    requires GoodDown(s) && GoodReader(s) && CalmStep(p, prov, s, step) && !step.TakeDownlink?
    ensures GoodDown(Next(p, prov, s, step)) && GoodReader(Next(p, prov, s, step))
  {
    var s' := Next(p, prov, s, step);
    if SavesJoin(p, prov, s, step) {
      SavedJoin(p, prov, s, step);
    } else {
      assert s'.accepted == s.accepted && s'.sess.fcntDown == s.sess.fcntDown;
    }
  }

  lemma {:induction false} CalmRunsKeepDown(p: Primitives, prov: JoinFrames.Provisioning, steps: seq<Step>)
    requires CalmRun(p, prov, steps)
    ensures GoodDown(Run(p, prov, steps)) && GoodReader(Run(p, prov, steps))
  {
    if steps != [] {
      CalmRunsKeepDown(p, prov, steps[..|steps| - 1]);
      StepKeepsDown(p, prov, Run(p, prov, steps[..|steps| - 1]), steps[|steps| - 1]);
    }
  }

  /** Over every run in which no join is saved between a downlink's read and its store, the stored FCntDown is the
      largest counter accepted for the session, and the accepted counters never decrease. */
  lemma StoredCounterIsLargestAccepted(p: Primitives, prov: JoinFrames.Provisioning, steps: seq<Step>)
    requires CalmRun(p, prov, steps)
    ensures GoodDown(Run(p, prov, steps))
    ensures forall c <- Run(p, prov, steps).accepted :: c <= Run(p, prov, steps).sess.fcntDown
  {
    CalmRunsKeepDown(p, prov, steps);
  }

  /** The read loop stays between its read and its store, and no further join is saved. */
  predicate Handling(p: Primitives, prov: JoinFrames.Provisioning, before: seq<Step>, mid: seq<Step>) {
    mid == []
    || (var earlier, last := mid[..|mid| - 1], mid[|mid| - 1];
        && Handling(p, prov, before, earlier)
        && !last.Restart? && !last.TakeDownlink?
        && !SavesJoin(p, prov, Run(p, prov, before + earlier), last))
  }

  lemma StepWhileHandling(p: Primitives, prov: JoinFrames.Provisioning, s: State, step: Step)
    requires s.reader.Some? && !step.Restart? && !step.TakeDownlink? && !SavesJoin(p, prov, s, step)
    ensures var t := Next(p, prov, s, step);
      && t.reader == s.reader && t.accepted == s.accepted
      && t.sess.fcntDown == s.sess.fcntDown && t.sess.joined == s.sess.joined
  {
  }

  lemma {:induction false} ReaderKeepsItsSession(
    p: Primitives, prov: JoinFrames.Provisioning, before: seq<Step>, mid: seq<Step>)
    requires Run(p, prov, before).reader.Some? && Handling(p, prov, before, mid)
    ensures var s, t := Run(p, prov, before), Run(p, prov, before + mid);
      && t.reader == s.reader && t.accepted == s.accepted
      && t.sess.fcntDown == s.sess.fcntDown && t.sess.joined == s.sess.joined
  {
    if mid == [] {
      assert before + mid == before;
    } else {
      var earlier, last := mid[..|mid| - 1], mid[|mid| - 1];
      ReaderKeepsItsSession(p, prov, before, earlier);
      assert before + mid == (before + earlier) + [last];
      RunAppend(p, prov, before + earlier, last);
      StepWhileHandling(p, prov, Run(p, prov, before + earlier), last);
    }
  }

  lemma SavedJoin(p: Primitives, prov: JoinFrames.Provisioning, s: State, join: Step)
    requires SavesJoin(p, prov, s, join)
    ensures var t := Next(p, prov, s, join);
      t.reader == Outdated(s.reader) && t.accepted == [] && t.sess.fcntDown == 0 && t.sess.joined
  {
  }

  /** The downlink counter of what was accepted, or zero. */
  function StoredBy(p: Primitives, sess: Session, frame: Bytes): nat {
    match Taken(p, sess, frame)
    case Some(dl) => dl.fcnt
    case None => 0
  }

  lemma OutdatedStore(p: Primitives, prov: JoinFrames.Provisioning, t: State, replaced: Session, frame: Bytes)
    requires t.reader == Some(Reader(replaced, false)) && t.accepted == [] && t.sess.fcntDown == 0
    ensures var s := Next(p, prov, t, TakeDownlink(frame));
      s.accepted == [] && s.sess.fcntDown == StoredBy(p, replaced, frame) && s.sess.joined == t.sess.joined
  {
  }

  /** When a join is saved between the two halves of HandleDownlink, with anything going on before the store: the
      new session is left with the counter of the frame if the old one accepts it, and so refuses its own counters
      below that; this is no different from zero exactly when the frame is not accepted or has counter zero. */
  lemma JoinBetweenReadAndStore(
    p: Primitives, prov: JoinFrames.Provisioning, steps: seq<Step>, join: Step, mid: seq<Step>, frame: Bytes)
    requires Run(p, prov, steps).reader.Some? && SavesJoin(p, prov, Run(p, prov, steps), join)
    requires Handling(p, prov, steps + [join], mid)
    ensures var replaced := Run(p, prov, steps).reader.value.sess;
            var s := Run(p, prov, steps + [join] + mid + [TakeDownlink(frame)]);
      && s.sess.joined && s.accepted == [] && s.sess.fcntDown == StoredBy(p, replaced, frame)
      && (GoodDown(s) <==> StoredBy(p, replaced, frame) == 0)
  {
    var all := steps + [join] + mid;
    RunAppend(p, prov, steps, join);
    SavedJoin(p, prov, Run(p, prov, steps), join);
    ReaderKeepsItsSession(p, prov, steps + [join], mid);
    RunAppend(p, prov, all, TakeDownlink(frame));
    OutdatedStore(p, prov, Run(p, prov, all), Run(p, prov, steps).reader.value.sess, frame);
  }

  /** A concrete run that stores too late: join, begin another join, read the session for a downlink. */
  function JoinThenRead(accept: Bytes): seq<Step> {
    [] + [BeginJoin] + [FinishJoin(1, accept)] + [BeginJoin] + [ReadForDownlink]
  }

  lemma StateOfFour(p: Primitives, prov: JoinFrames.Provisioning, accept: Bytes, joined: Session)
    requires JoinFrames.AcceptResult(p, prov, 1, accept).Ok?
    requires joined == AfterJoin(
      NEW_SESSION.(devNonce := 1), JoinStateOf(JoinFrames.AcceptResult(p, prov, 1, accept).value))
    ensures var s := Run(p, prov, JoinThenRead(accept));
      s.pending == {2} && s.reader == Some(Reader(AfterNonce(joined), true))
  {
    var two := [] + [BeginJoin] + [FinishJoin(1, accept)];
    StateOfTwo(p, prov, accept, joined);
    RunAppend(p, prov, two, BeginJoin);
    RunAppend(p, prov, two + [BeginJoin], ReadForDownlink);
    BeginsAndReads(p, prov, Run(p, prov, two), joined);
  }

  lemma BeginsAndReads(p: Primitives, prov: JoinFrames.Provisioning, s: State, joined: Session)
    requires s == State(joined, {}, map[], None, [], [1], [1], []) && joined.joined && joined.devNonce == 1
    requires joined.fcntUp == 0 && joined.fcntDown == 0
    ensures var s' := Next(p, prov, Next(p, prov, s, BeginJoin), ReadForDownlink);
      s'.pending == {2} && s'.reader == Some(Reader(AfterNonce(joined), true))
  {
    assert Next(p, prov, s, BeginJoin) == State(AfterNonce(joined), {2}, map[], None, [], [1, 2], [1], []);
  }

  lemma StateOfTwo(p: Primitives, prov: JoinFrames.Provisioning, accept: Bytes, joined: Session)
    requires JoinFrames.AcceptResult(p, prov, 1, accept).Ok?
    requires joined == AfterJoin(
      NEW_SESSION.(devNonce := 1), JoinStateOf(JoinFrames.AcceptResult(p, prov, 1, accept).value))
    ensures Run(p, prov, [] + [BeginJoin] + [FinishJoin(1, accept)])
         == State(joined, {}, map[], None, [], [1], [1], [])
  {
    RunAppend(p, prov, [], BeginJoin);
    assert Run(p, prov, [] + [BeginJoin]) == State(NEW_SESSION.(devNonce := 1), {1}, map[], None, [], [1], [], []);
    RunAppend(p, prov, [] + [BeginJoin], FinishJoin(1, accept));
  }

  /** The session that was saved reads frames with the keys of its join. */
  lemma SavedSessionReads(p: Primitives, r: JoinFrames.JoinResult, sess: Session, frame: Bytes)
    requires sess == AfterNonce(AfterJoin(NEW_SESSION.(devNonce := 1), JoinStateOf(r)))
    ensures ReadDownlink(p, sess, frame) == DataFrames.DownlinkResult(p, r.keys.nwk, r.keys.app, frame)
  {
    ParseDevAddrRoundTrip(r.accept.devAddr);
    ParseKeyRoundTrip(r.keys.nwk);
    ParseKeyRoundTrip(r.keys.app);
  }

  lemma FrameOf(p: Primitives, r: JoinFrames.JoinResult, sess: Session, fcnt: nat) returns (frame: Bytes)
    requires sess == AfterNonce(AfterJoin(NEW_SESSION.(devNonce := 1), JoinStateOf(r))) && 0 < fcnt < TWO_TO_16
    ensures StoredBy(p, sess, frame) == fcnt
  {
    frame := DataFrames.DownlinkFrame(p, r.keys.nwk, r.keys.app, r.accept.devAddr, fcnt, 1, []);
    DataFrames.DownlinkRoundTrip(p, r.keys.nwk, r.keys.app, r.accept.devAddr, fcnt, 1, []);
    SavedSessionReads(p, r, sess, frame);
  }

  lemma SomeAccept(p: Primitives, prov: JoinFrames.Provisioning) returns (accept: Bytes)
    requires p.Lawful()
    ensures JoinFrames.AcceptResult(p, prov, 1, accept).Ok? && JoinFrames.AcceptResult(p, prov, 2, accept).Ok?
  {
    var a := JoinFrames.Accept(1, [0, 0, 1], [1, 2, 3, 4], 0, 0, 1);
    accept := JoinFrames.JoinAcceptFrame(p, prov.appKey, a);
    JoinFrames.JoinAcceptRoundTrip(p, prov, 1, a);
    JoinFrames.JoinAcceptRoundTrip(p, prov, 2, a);
  }

  lemma StaleStore(
    p: Primitives, prov: JoinFrames.Provisioning, accept: Bytes, joined: Session, frame: Bytes, fcnt: nat)
    requires JoinFrames.AcceptResult(p, prov, 1, accept).Ok? && JoinFrames.AcceptResult(p, prov, 2, accept).Ok?
    requires joined == AfterJoin(
      NEW_SESSION.(devNonce := 1), JoinStateOf(JoinFrames.AcceptResult(p, prov, 1, accept).value))
    requires 0 < fcnt && StoredBy(p, AfterNonce(joined), frame) == fcnt
    ensures var s := Run(p, prov, JoinThenRead(accept) + [FinishJoin(2, accept)] + [] + [TakeDownlink(frame)]);
      s.sess.joined && s.accepted == [] && s.sess.fcntDown == fcnt && !GoodDown(s)
  {
    StateOfFour(p, prov, accept, joined);
    JoinBetweenReadAndStore(p, prov, JoinThenRead(accept), FinishJoin(2, accept), [], frame);
  }

  /** So it happens: in some run a downlink of the first session leaves its counter to the second, which then refuses
      its own downlinks below it. */
  lemma StaleStoreHappens(p: Primitives, prov: JoinFrames.Provisioning, fcnt: nat)
    returns (accept: Bytes, frame: Bytes)
    requires p.Lawful() && 0 < fcnt < TWO_TO_16
    ensures var s := Run(p, prov, JoinThenRead(accept) + [FinishJoin(2, accept)] + [] + [TakeDownlink(frame)]);
      && s.sess.joined && s.accepted == [] && s.sess.fcntDown == fcnt && !GoodDown(s)
      && forall c: nat :: c < fcnt ==> Stale(s.sess, c)
  {
    accept := SomeAccept(p, prov);
    var r := JoinFrames.AcceptResult(p, prov, 1, accept).value;
    var joined := AfterJoin(NEW_SESSION.(devNonce := 1), JoinStateOf(r));
    frame := FrameOf(p, r, AfterNonce(joined), fcnt);
    StaleStore(p, prov, accept, joined, frame, fcnt);
  }

  lemma CounterDoesNotAffectReading(p: Primitives, s: Session, fcnt: nat, frame: Bytes)
    requires Readable(s) && fcnt < TWO_TO_32
    ensures ReadDownlink(p, AfterDown(s, fcnt), frame) == ReadDownlink(p, s, frame)
  {
  }

  lemma ReadCounterBound(p: Primitives, s: Session, frame: Bytes)
    requires ReadDownlink(p, s, frame).Ok?
    ensures ReadDownlink(p, s, frame).value.fcnt < TWO_TO_16
  {
    DataFrames.CounterBound(p, ParseKey(s.nwkSKey).value, ParseKey(s.appSKey).value, frame);
  }

  /** A decodable downlink is taken exactly when its counter is not below the stored one; in particular one that
      was just taken is taken again. */
  lemma AcceptedIffNotPassed(p: Primitives, s: Session, frame: Bytes)
    requires ReadDownlink(p, s, frame).Ok?
    ensures var fcnt := ReadDownlink(p, s, frame).value.fcnt;
      && (Accepts(p, s, frame) <==> fcnt >= s.fcntDown)
      && Accepts(p, AfterDown(s, fcnt), frame)
  {
    ReadCounterBound(p, s, frame);
    CounterDoesNotAffectReading(p, s, ReadDownlink(p, s, frame).value.fcnt, frame);
  }
}
