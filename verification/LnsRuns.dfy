/** The mock server's goroutines interleaved step by step: each join-request is answered by the goroutine serving its
    gateway connection, each push runs on its caller's (internal/mocklns/mocklns.go). */
module LnsRuns {
  import opened ByteStrings
  import opened Crypto
  import opened MockLns
  import opened Queues
  import opened Wrappers
  import Bridge
  import Hex
  import JoinFrames
  import Keys

  /** A goroutine between two steps, with its local variables; `info` is the joinInfo it points to. */
  datatype Task =
    | Answering(jr: Bridge.Jreq, nonce: nat, pdu: string)                 // join nonce taken, accept built
    | Answered(jr: Bridge.Jreq, pdu: string)                              // session stored
    | Pushing(info: nat, devEui: string, fport: byte, data: Bytes)        // counter stepped on
    | Framed(info: nat, fcnt: Uint32, devEui: string, fport: byte, data: Bytes)
    | Numbered(m: Dnmsg)                                                  // DIID taken

  /** The joinInfo objects are numbered in the order they are stored; `sessions` points to them. `sent` is what was
      written to the gateway, in order. */
  datatype State = State(
    joinNonce: nat, diid: nat, infos: seq<JoinInfo>, sessions: map<string, nat>, tasks: map<nat, Task>,
    sent: seq<Dnmsg>)

  datatype Step =
    | TakeNonce(t: nat, jr: Bridge.Jreq)
    | Publish(t: nat)
    | Bump(t: nat, devEui: string, fport: byte, data: Bytes)
    | ReadCounter(t: nat)
    | TakeDiid(t: nat)
    | Write(t: nat, ok: bool)

  function Initial(start: nat): State {
    State(start, 0, [], map[], map[], [])
  }

  predicate Answerable(cfg: Config, jr: Bridge.Jreq, nonce: nat) {
    ParseEui64(jr.joinEui).Some? && JoinFrames.FitsAccept(AcceptOf(cfg, nonce))
  }

  /** How accepts and data downlinks are rendered in hex; the order of events does not depend on it. */
  datatype Library = Library(accept: nat -> string, frame: (JoinInfo, byte, Bytes) -> string)

  /** The accept for a join nonce, and the downlink that carries the counter of the joinInfo. */
  function LibraryOf(p: Primitives, cfg: Config): Library {
    Library(
      (nonce: nat) => if JoinFrames.FitsAccept(AcceptOf(cfg, nonce))
                      then Hex.Encode(JoinFrames.JoinAcceptFrame(p, cfg.appKey, AcceptOf(cfg, nonce))) else "",
      (info: JoinInfo, fport: byte, data: Bytes) => Push(p, cfg, info, "", fport, data, 0).pdu)
  }

  predicate Enabled(s: State, step: Step) {
    match step
    case TakeNonce(t, _) => t !in s.tasks
    case Publish(t) => t in s.tasks && s.tasks[t].Answering?
    case Bump(t, d, _, _) => t !in s.tasks && d in s.sessions && s.sessions[d] < |s.infos|
    case ReadCounter(t) => t in s.tasks && s.tasks[t].Pushing? && s.tasks[t].info < |s.infos|
    case TakeDiid(t) => t in s.tasks && (s.tasks[t].Answered? || (s.tasks[t].Framed? && s.tasks[t].info < |s.infos|))
    case Write(t, _) => t in s.tasks && s.tasks[t].Numbered?
  }

  function PushMessage(cfg: Config, devEui: string, diid: nat, pdu: string): Dnmsg {
    Dnmsg(devEui, 2, diid, pdu, 0, 0, 0, cfg.rx2Dr, cfg.rx2Freq, 0, 0)
  }

  /** The message of a goroutine that takes DIID `diid`. */
  function MessageOf(lib: Library, cfg: Config, s: State, t: nat, diid: nat): (m: Dnmsg)
    requires Enabled(s, TakeDiid(t))
    ensures m.diid == diid
  {
    match s.tasks[t]
    case Answered(jr, pdu) =>
      Dnmsg(jr.devEui, 0, diid, pdu, cfg.rxDelay, jr.dr, jr.freq, cfg.rx2Dr, cfg.rx2Freq, jr.info.xtime, jr.info.rctx)
    case Framed(i, fcnt, devEui, fport, data) =>
      PushMessage(cfg, devEui, diid, lib.frame(s.infos[i].(fcntDown := fcnt), fport, data))
  }

  function Stepped(info: JoinInfo): JoinInfo {
    info.(fcntDown := Successor(info.fcntDown))
  }

  function Next(lib: Library, cfg: Config, s: State, step: Step): State
    requires Enabled(s, step)
  {
    match step
    case TakeNonce(t, jr) =>
      var n := Successor(s.joinNonce);
      if Answerable(cfg, jr, n) then s.(joinNonce := n, tasks := s.tasks[t := Answering(jr, n, lib.accept(n))])
      else s.(joinNonce := n)
    case Publish(t) =>
      var Answering(jr, n, pdu) := s.tasks[t];
      s.(infos := s.infos + [JoinInfo(n, jr.devNonce, 0)], sessions := s.sessions[jr.devEui := |s.infos|],
         tasks := s.tasks[t := Answered(jr, pdu)])
    case Bump(t, d, fport, data) =>
      var i := s.sessions[d];
      s.(infos := s.infos[i := Stepped(s.infos[i])], tasks := s.tasks[t := Pushing(i, d, fport, data)])
    case ReadCounter(t) =>
      var Pushing(i, d, fport, data) := s.tasks[t];
      if s.infos[i].joinNonce >= TWO_TO_24 then s.(tasks := s.tasks - {t})
      else s.(tasks := s.tasks[t := Framed(i, Predecessor(s.infos[i].fcntDown), d, fport, data)])
    case TakeDiid(t) =>
      s.(diid := s.diid + 1, tasks := s.tasks[t := Numbered(MessageOf(lib, cfg, s, t, s.diid + 1))])
    case Write(t, ok) =>
      s.(tasks := s.tasks - {t}, sent := if ok then s.sent + [s.tasks[t].m] else s.sent)
  }

  /** A step that is not enabled is skipped. */
  function Exec(lib: Library, cfg: Config, s: State, step: Step): State {
    if Enabled(s, step) then Next(lib, cfg, s, step) else s
  }

  function Run(lib: Library, cfg: Config, start: nat, steps: seq<Step>): State {
    if steps == [] then Initial(start)
    else Exec(lib, cfg, Run(lib, cfg, start, steps[..|steps| - 1]), steps[|steps| - 1])
  }

  lemma RunAppend(lib: Library, cfg: Config, start: nat, steps: seq<Step>, step: Step)
    ensures Run(lib, cfg, start, steps + [step]) == Exec(lib, cfg, Run(lib, cfg, start, steps), step)
  {
    assert (steps + [step])[..|steps|] == steps;
  }

  // DIIDs

  function Diids(sent: seq<Dnmsg>): seq<nat> {
    seq(|sent|, i requires 0 <= i < |sent| => sent[i].diid)
  }

  predicate HoldsDiid(s: State, t: nat, diid: nat) {
    t in s.tasks && s.tasks[t].Numbered? && s.tasks[t].m.diid == diid
  }

  /** No DIID is used twice, whether written or about to be. */
  ghost predicate DistinctDiids(s: State) {
    && (forall i :: 0 <= i < |s.sent| ==> s.sent[i].diid <= s.diid)
    && (forall i, j :: 0 <= i < j < |s.sent| ==> s.sent[i].diid != s.sent[j].diid)
    && (forall t: nat, d: nat :: HoldsDiid(s, t, d) ==> d <= s.diid)
    && (forall t: nat, u: nat, d: nat :: HoldsDiid(s, t, d) && HoldsDiid(s, u, d) ==> t == u)
    && (forall t: nat, i :: 0 <= i < |s.sent| ==> !HoldsDiid(s, t, s.sent[i].diid))
  }

  lemma NumberKeepsDistinct(s: State, t: nat, m: Dnmsg)
    requires DistinctDiids(s) && t in s.tasks && !s.tasks[t].Numbered? && m.diid == s.diid + 1
    ensures DistinctDiids(s.(diid := s.diid + 1, tasks := s.tasks[t := Numbered(m)]))
  {
    var s' := s.(diid := s.diid + 1, tasks := s.tasks[t := Numbered(m)]);
    assert forall u: nat, d: nat :: HoldsDiid(s', u, d) <==> HoldsDiid(s, u, d) || (u == t && d == m.diid);
  }

  lemma WriteKeepsDistinct(s: State, t: nat, ok: bool)
    requires DistinctDiids(s) && t in s.tasks && s.tasks[t].Numbered?
    ensures DistinctDiids(s.(tasks := s.tasks - {t}, sent := if ok then s.sent + [s.tasks[t].m] else s.sent))
  {
    var s' := s.(tasks := s.tasks - {t}, sent := if ok then s.sent + [s.tasks[t].m] else s.sent);
    assert HoldsDiid(s, t, s.tasks[t].m.diid);
    assert forall u: nat, d: nat :: HoldsDiid(s', u, d) <==> HoldsDiid(s, u, d) && u != t;
  }

  lemma OthersKeepDistinct(lib: Library, cfg: Config, s: State, step: Step)
    requires DistinctDiids(s) && Enabled(s, step) && !step.TakeDiid? && !step.Write?
    ensures DistinctDiids(Next(lib, cfg, s, step))
  {
    var s' := Next(lib, cfg, s, step);
    assert s'.sent == s.sent && s'.diid == s.diid;
    assert forall u: nat, d: nat :: HoldsDiid(s', u, d) <==> HoldsDiid(s, u, d);
  }

  lemma {:induction false} RunsKeepDistinct(lib: Library, cfg: Config, start: nat, steps: seq<Step>)
    ensures DistinctDiids(Run(lib, cfg, start, steps))
  {
    if steps != [] {
      var s, step := Run(lib, cfg, start, steps[..|steps| - 1]), steps[|steps| - 1];
      RunsKeepDistinct(lib, cfg, start, steps[..|steps| - 1]);
      if Enabled(s, step) {
        match step
        case TakeDiid(t) => NumberKeepsDistinct(s, t, MessageOf(lib, cfg, s, t, s.diid + 1));
        case Write(t, ok) => WriteKeepsDistinct(s, t, ok);
        case _ => OthersKeepDistinct(lib, cfg, s, step);
      }
    }
  }

  /** However replies and pushes interleave, no two messages written to the gateway carry the same DIID. */
  lemma DiidsDistinct(lib: Library, cfg: Config, start: nat, steps: seq<Step>)
    ensures Distinct(Diids(Run(lib, cfg, start, steps).sent))
  {
    RunsKeepDistinct(lib, cfg, start, steps);
  }

  /** Step `i` writes DIID `d` to the gateway. */
  predicate WritesDiid(lib: Library, cfg: Config, start: nat, steps: seq<Step>, i: nat, d: nat) {
    i < |steps| && steps[i].Write? && steps[i].ok && HoldsDiid(Run(lib, cfg, start, steps[..i]), steps[i].t, d)
  }

  /** Step `i` writes DIID `d` while the goroutine that is to write the smaller `e`, in step `j`, already holds it. */
  predicate Overtakes(
    lib: Library, cfg: Config, start: nat, steps: seq<Step>, i: nat, j: nat, d: nat, e: nat)
  {
    && i < j && e < d
    && WritesDiid(lib, cfg, start, steps, i, d) && WritesDiid(lib, cfg, start, steps, j, e)
    && HoldsDiid(Run(lib, cfg, start, steps[..i]), steps[j].t, e)
  }

  lemma WritesInPrefix(lib: Library, cfg: Config, start: nat, steps: seq<Step>, i: nat, d: nat)
    requires i < |steps| - 1
    ensures steps[..|steps| - 1][..i] == steps[..i]
    ensures WritesDiid(lib, cfg, start, steps, i, d) <==> WritesDiid(lib, cfg, start, steps[..|steps| - 1], i, d)
  {
    assert steps[..|steps| - 1][..i] == steps[..i];
  }

  /** What the last step adds to the DIIDs sent. */
  lemma LastWrite(lib: Library, cfg: Config, start: nat, steps: seq<Step>, last: nat)
    requires last + 1 == |steps|
    ensures var s, step := Run(lib, cfg, start, steps[..last]), steps[last];
            var written := Enabled(s, step) && step.Write? && step.ok;
      && Diids(Run(lib, cfg, start, steps).sent) ==
           (if written then Diids(s.sent) + [s.tasks[step.t].m.diid] else Diids(s.sent))
      && forall d: nat ::
           WritesDiid(lib, cfg, start, steps, last, d) <==> written && s.tasks[step.t].m.diid == d
  {
  }

  lemma {:induction false} SentIffWritten(lib: Library, cfg: Config, start: nat, steps: seq<Step>, d: nat)
    ensures d in Diids(Run(lib, cfg, start, steps).sent)
      <==> exists i: nat :: WritesDiid(lib, cfg, start, steps, i, d)
  {
    if steps != [] {
      var most, last := steps[..|steps| - 1], |steps| - 1;
      SentIffWritten(lib, cfg, start, most, d);
      LastWrite(lib, cfg, start, steps, last);
      forall i: nat | i < last
        ensures WritesDiid(lib, cfg, start, steps, i, d) <==> WritesDiid(lib, cfg, start, most, i, d)
      {
        WritesInPrefix(lib, cfg, start, steps, i, d);
      }
      assert WritesDiid(lib, cfg, start, steps, last, d) ==> d in Diids(Run(lib, cfg, start, steps).sent);
    }
  }

  lemma {:induction false} DiidGrows(lib: Library, cfg: Config, start: nat, steps: seq<Step>, i: nat)
    requires i <= |steps|
    ensures Run(lib, cfg, start, steps[..i]).diid <= Run(lib, cfg, start, steps).diid
  {
    if i == |steps| {
      assert steps[..i] == steps;
    } else {
      DiidGrows(lib, cfg, start, steps[..|steps| - 1], i);
      assert steps[..|steps| - 1][..i] == steps[..i];
    }
  }

  /** A DIID held at the end that had been given out after `i` steps was held by the same goroutine then. */
  lemma {:induction false} HeldBefore(
    lib: Library, cfg: Config, start: nat, steps: seq<Step>, i: nat, t: nat, d: nat)
    requires i <= |steps| && HoldsDiid(Run(lib, cfg, start, steps), t, d) && d <= Run(lib, cfg, start, steps[..i]).diid
    ensures HoldsDiid(Run(lib, cfg, start, steps[..i]), t, d)
  {
    if i == |steps| {
      assert steps[..i] == steps;
    } else {
      var most := steps[..|steps| - 1];
      assert most[..i] == steps[..i];
      DiidGrows(lib, cfg, start, most, i);
      HeldBefore(lib, cfg, start, most, i, t, d);
    }
  }

  /** The last step writes `e`: the larger DIIDs sent before are the ones that overtook it. */
  lemma LastIsOvertaken(lib: Library, cfg: Config, start: nat, steps: seq<Step>, last: nat, d: nat, e: nat)
    requires last + 1 == |steps| && e < d && WritesDiid(lib, cfg, start, steps, last, e)
    ensures d in Diids(Run(lib, cfg, start, steps[..last]).sent)
      <==> exists i: nat :: Overtakes(lib, cfg, start, steps, i, last, d, e)
  {
    var most := steps[..last];
    SentIffWritten(lib, cfg, start, most, d);
    forall i: nat | i < last
      ensures WritesDiid(lib, cfg, start, most, i, d) <==> Overtakes(lib, cfg, start, steps, i, last, d, e)
    {
      WritesInPrefix(lib, cfg, start, steps, i, d);
      if WritesDiid(lib, cfg, start, most, i, d) {
        RunsKeepDistinct(lib, cfg, start, most[..i]);
        HeldBefore(lib, cfg, start, most, i, steps[last].t, e);
      }
    }
  }

  /** What the last step adds to the pairs out of order. */
  lemma LastStepOrder(lib: Library, cfg: Config, start: nat, steps: seq<Step>, last: nat, d: nat, e: nat)
    requires last + 1 == |steps| && e < d
    ensures Before(Diids(Run(lib, cfg, start, steps).sent), d, e)
      <==> || Before(Diids(Run(lib, cfg, start, steps[..last]).sent), d, e)
           || exists i: nat :: Overtakes(lib, cfg, start, steps, i, last, d, e)
  {
    var sent := Diids(Run(lib, cfg, start, steps[..last]).sent);
    LastWrite(lib, cfg, start, steps, last);
    if WritesDiid(lib, cfg, start, steps, last, e) {
      BeforeAppend(sent, e, d, e);
      LastIsOvertaken(lib, cfg, start, steps, last, d, e);
    } else if Diids(Run(lib, cfg, start, steps).sent) != sent {
      var x := Run(lib, cfg, start, steps[..last]).tasks[steps[last].t].m.diid;
      BeforeAppend(sent, x, d, e);
    }
  }

  /** A smaller DIID follows a larger one on the link exactly when it was overtaken. */
  lemma {:induction false} SentLaterIff(lib: Library, cfg: Config, start: nat, steps: seq<Step>, d: nat, e: nat)
    requires e < d
    ensures Before(Diids(Run(lib, cfg, start, steps).sent), d, e)
      <==> exists i: nat, j: nat :: Overtakes(lib, cfg, start, steps, i, j, d, e)
  {
    if steps != [] {
      var most, last := steps[..|steps| - 1], |steps| - 1;
      SentLaterIff(lib, cfg, start, most, d, e);
      LastStepOrder(lib, cfg, start, steps, last, d, e);
      forall i: nat, j: nat | i < j < last
        ensures Overtakes(lib, cfg, start, steps, i, j, d, e) <==> Overtakes(lib, cfg, start, most, i, j, d, e)
      {
        WritesInPrefix(lib, cfg, start, steps, i, d);
        WritesInPrefix(lib, cfg, start, steps, j, e);
      }
    }
  }

  /** DIIDs increase on the link exactly when no write overtakes a goroutine that holds a smaller one and later
      writes it. */
  lemma IncreasingIffNoOvertaking(lib: Library, cfg: Config, start: nat, steps: seq<Step>)
    ensures Increasing(Diids(Run(lib, cfg, start, steps).sent))
      <==> forall i: nat, j: nat, d: nat, e: nat :: !Overtakes(lib, cfg, start, steps, i, j, d, e)
  {
    var sent := Diids(Run(lib, cfg, start, steps).sent);
    IncreasingBefore(sent);
    DiidsDistinct(lib, cfg, start, steps);
    forall d: nat, e: nat ensures Before(sent, d, e) && e < d
      <==> exists i: nat, j: nat :: Overtakes(lib, cfg, start, steps, i, j, d, e)
    {
      if e < d {
        SentLaterIff(lib, cfg, start, steps, d, e);
      }
    }
    if Increasing(sent) {
      forall i: nat, j: nat, d: nat, e: nat ensures !Overtakes(lib, cfg, start, steps, i, j, d, e) {
        assert Before(sent, d, e) ==> d < e;
      }
    } else {
      var d: nat, e: nat :| Before(sent, d, e) && !(d < e);
      assert e < d;
      assert exists i: nat, j: nat :: Overtakes(lib, cfg, start, steps, i, j, d, e);
    }
  }

  /** No DIID is taken while another goroutine has one it has not written yet. */
  predicate Serialised(s: State, step: Step) {
    step.TakeDiid? ==> forall t <- s.tasks :: !s.tasks[t].Numbered?
  }

  predicate SerialisedRun(lib: Library, cfg: Config, start: nat, steps: seq<Step>) {
    steps == []
    || (&& SerialisedRun(lib, cfg, start, steps[..|steps| - 1])
        && Serialised(Run(lib, cfg, start, steps[..|steps| - 1]), steps[|steps| - 1]))
  }

  lemma {:induction false} OneNumbered(
    lib: Library, cfg: Config, start: nat, steps: seq<Step>, t: nat, u: nat, d: nat, e: nat)
    requires SerialisedRun(lib, cfg, start, steps)
    requires HoldsDiid(Run(lib, cfg, start, steps), t, d) && HoldsDiid(Run(lib, cfg, start, steps), u, e)
    ensures t == u
  {
    var before, step := steps[..|steps| - 1], steps[|steps| - 1];
    var s := Run(lib, cfg, start, before);
    if HoldsDiid(s, t, d) && HoldsDiid(s, u, e) {
      OneNumbered(lib, cfg, start, before, t, u, d, e);
    } else {
      assert Enabled(s, step) && step.TakeDiid?;
    }
  }

  lemma {:induction false} SerialisedPrefix(lib: Library, cfg: Config, start: nat, steps: seq<Step>, i: nat)
    requires i <= |steps| && SerialisedRun(lib, cfg, start, steps)
    ensures SerialisedRun(lib, cfg, start, steps[..i])
  {
    if i == |steps| {
      assert steps[..i] == steps;
    } else {
      SerialisedPrefix(lib, cfg, start, steps[..|steps| - 1], i);
      assert steps[..|steps| - 1][..i] == steps[..i];
    }
  }

  /** If replies and pushes take and write their DIIDs one after the other, the DIIDs on the link increase. */
  lemma DiidsIncrease(lib: Library, cfg: Config, start: nat, steps: seq<Step>)
    requires SerialisedRun(lib, cfg, start, steps)
    ensures Increasing(Diids(Run(lib, cfg, start, steps).sent))
  {
    forall i: nat, j: nat, d: nat, e: nat ensures !Overtakes(lib, cfg, start, steps, i, j, d, e) {
      if Overtakes(lib, cfg, start, steps, i, j, d, e) {
        SerialisedPrefix(lib, cfg, start, steps, i);
        OneNumbered(lib, cfg, start, steps[..i], steps[i].t, steps[j].t, d, e);
      }
    }
    IncreasingIffNoOvertaking(lib, cfg, start, steps);
  }

  // Join nonces

  predicate HoldsNonce(s: State, t: nat, nonce: nat) {
    t in s.tasks && s.tasks[t].Answering? && s.tasks[t].nonce == nonce
  }

  ghost predicate DistinctNonces(s: State) {
    && (forall i :: 0 <= i < |s.infos| ==> s.infos[i].joinNonce <= s.joinNonce && s.infos[i].joinNonce < TWO_TO_24)
    && (forall i, j :: 0 <= i < j < |s.infos| ==> s.infos[i].joinNonce != s.infos[j].joinNonce)
    && (forall t: nat, n: nat :: HoldsNonce(s, t, n) ==> n <= s.joinNonce && n < TWO_TO_24)
    && (forall t: nat, u: nat, n: nat :: HoldsNonce(s, t, n) && HoldsNonce(s, u, n) ==> t == u)
    && (forall t: nat, i :: 0 <= i < |s.infos| ==> !HoldsNonce(s, t, s.infos[i].joinNonce))
  }

  lemma TakeKeepsNonces(lib: Library, cfg: Config, s: State, t: nat, jr: Bridge.Jreq)
    requires DistinctNonces(s) && Enabled(s, TakeNonce(t, jr)) && s.joinNonce + 1 < TWO_TO_32
    ensures var s' := Next(lib, cfg, s, TakeNonce(t, jr)); DistinctNonces(s') && s'.joinNonce == s.joinNonce + 1
  {
    var s', n := Next(lib, cfg, s, TakeNonce(t, jr)), s.joinNonce + 1;
    assert s'.infos == s.infos;
    if Answerable(cfg, jr, n) {
      assert forall u: nat, k: nat :: HoldsNonce(s', u, k) <==> HoldsNonce(s, u, k) || (u == t && k == n);
    } else {
      assert forall u: nat, k: nat :: HoldsNonce(s', u, k) <==> HoldsNonce(s, u, k);
    }
  }

  lemma PublishKeepsNonces(lib: Library, cfg: Config, s: State, t: nat)
    requires DistinctNonces(s) && Enabled(s, Publish(t))
    ensures DistinctNonces(Next(lib, cfg, s, Publish(t)))
  {
    var s' := Next(lib, cfg, s, Publish(t));
    assert HoldsNonce(s, t, s.tasks[t].nonce);
    assert forall u: nat, k: nat :: HoldsNonce(s', u, k) <==> HoldsNonce(s, u, k) && u != t;
  }

  /** The remaining steps store no join and take no join nonce. */
  lemma OthersKeepNonces(lib: Library, cfg: Config, s: State, step: Step)
    requires Enabled(s, step) && !step.TakeNonce? && !step.Publish?
    ensures var s' := Next(lib, cfg, s, step);
      && s'.joinNonce == s.joinNonce && |s'.infos| == |s.infos|
      && (forall i :: 0 <= i < |s.infos| ==>
            s'.infos[i].joinNonce == s.infos[i].joinNonce && s'.infos[i].devNonce == s.infos[i].devNonce)
      && (forall u: nat, k: nat :: HoldsNonce(s', u, k) <==> HoldsNonce(s, u, k))
  {
  }

  lemma {:induction false} RunsKeepNonces(lib: Library, cfg: Config, start: nat, steps: seq<Step>)
    requires start + |steps| < TWO_TO_32
    ensures DistinctNonces(Run(lib, cfg, start, steps)) && Run(lib, cfg, start, steps).joinNonce <= start + |steps|
  {
    if steps != [] {
      var s, step := Run(lib, cfg, start, steps[..|steps| - 1]), steps[|steps| - 1];
      RunsKeepNonces(lib, cfg, start, steps[..|steps| - 1]);
      if Enabled(s, step) {
        match step
        case TakeNonce(t, jr) => TakeKeepsNonces(lib, cfg, s, t, jr);
        case Publish(t) => PublishKeepsNonces(lib, cfg, s, t);
        case _ => OthersKeepNonces(lib, cfg, s, step);
      }
    }
  }

  /** However many goroutines answer join-requests, no two joins get the same join nonce. */
  lemma JoinNoncesDistinct(lib: Library, cfg: Config, start: nat, steps: seq<Step>)
    requires start + |steps| < TWO_TO_32
    ensures var infos := Run(lib, cfg, start, steps).infos;
      && (forall i, j :: 0 <= i < j < |infos| ==> infos[i].joinNonce != infos[j].joinNonce)
      && (forall i :: 0 <= i < |infos| ==> infos[i].joinNonce < TWO_TO_24)
  {
    RunsKeepNonces(lib, cfg, start, steps);
  }

  /** All session keys issued under the one AppKey, network and application keys of all devices alike, are pairwise
      distinct, whatever DevNonces the devices chose and however their requests interleave. */
  lemma IssuedKeysDistinct(
    p: Primitives, lib: Library, cfg: Config, start: nat, steps: seq<Step>, i: nat, j: nat)
    requires p.Lawful() && start + |steps| < TWO_TO_32
    requires var infos := Run(lib, cfg, start, steps).infos;
      i < j < |infos| && infos[i].devNonce < TWO_TO_16 && infos[j].devNonce < TWO_TO_16
    ensures var infos := Run(lib, cfg, start, steps).infos;
            var a := Keys.KeysOf(p, cfg.appKey, cfg.netId, infos[i].joinNonce, infos[i].devNonce);
            var b := Keys.KeysOf(p, cfg.appKey, cfg.netId, infos[j].joinNonce, infos[j].devNonce);
      && a.nwk != a.app && a.nwk != b.nwk && a.nwk != b.app && a.app != b.nwk && a.app != b.app && b.nwk != b.app
  {
    JoinNoncesDistinct(lib, cfg, start, steps);
    var x, y := Run(lib, cfg, start, steps).infos[i], Run(lib, cfg, start, steps).infos[j];
    Keys.KeyOrigin(p, Keys.NWK_SKEY, cfg.appKey, cfg.netId, x.joinNonce, x.devNonce);
    Keys.KeyOrigin(p, Keys.APP_SKEY, cfg.appKey, cfg.netId, x.joinNonce, x.devNonce);
    Keys.KeyOrigin(p, Keys.NWK_SKEY, cfg.appKey, cfg.netId, y.joinNonce, y.devNonce);
    Keys.KeyOrigin(p, Keys.APP_SKEY, cfg.appKey, cfg.netId, y.joinNonce, y.devNonce);
  }

  /** One gateway connection is served at a time: no request is read before the previous one's session is stored. */
  predicate OneServing(s: State, step: Step) {
    step.TakeNonce? ==> forall t <- s.tasks :: !s.tasks[t].Answering?
  }

  predicate OneServingRun(lib: Library, cfg: Config, start: nat, steps: seq<Step>) {
    steps == []
    || (&& OneServingRun(lib, cfg, start, steps[..|steps| - 1])
        && OneServing(Run(lib, cfg, start, steps[..|steps| - 1]), steps[|steps| - 1]))
  }

  ghost predicate OrderedNonces(s: State) {
    && (forall i, j :: 0 <= i < j < |s.infos| ==> s.infos[i].joinNonce < s.infos[j].joinNonce)
    && (forall i :: 0 <= i < |s.infos| ==> s.infos[i].joinNonce <= s.joinNonce)
    && (forall t: nat, n: nat, i :: HoldsNonce(s, t, n) && 0 <= i < |s.infos| ==> s.infos[i].joinNonce < n)
    && (forall t: nat, u: nat, n: nat, k: nat :: HoldsNonce(s, t, n) && HoldsNonce(s, u, k) ==> t == u)
    && (forall t: nat, n: nat :: HoldsNonce(s, t, n) ==> n <= s.joinNonce)
  }

  lemma TakeKeepsOrderedNonces(lib: Library, cfg: Config, s: State, t: nat, jr: Bridge.Jreq)
    requires OrderedNonces(s) && Enabled(s, TakeNonce(t, jr)) && OneServing(s, TakeNonce(t, jr))
    requires s.joinNonce + 1 < TWO_TO_32
    ensures OrderedNonces(Next(lib, cfg, s, TakeNonce(t, jr)))
  {
    var s', n := Next(lib, cfg, s, TakeNonce(t, jr)), s.joinNonce + 1;
    assert s'.infos == s.infos && s'.joinNonce == n;
    assert forall u: nat, k: nat :: HoldsNonce(s', u, k) ==> u == t && k == n;
  }

  lemma PublishKeepsOrderedNonces(lib: Library, cfg: Config, s: State, t: nat)
    requires OrderedNonces(s) && Enabled(s, Publish(t))
    ensures OrderedNonces(Next(lib, cfg, s, Publish(t)))
  {
    var s' := Next(lib, cfg, s, Publish(t));
    assert HoldsNonce(s, t, s.tasks[t].nonce);
    assert forall u: nat, k: nat :: HoldsNonce(s', u, k) <==> HoldsNonce(s, u, k) && u != t;
  }

  /** With one gateway connection the joins get increasing join nonces. */
  lemma {:induction false} JoinNoncesIncrease(lib: Library, cfg: Config, start: nat, steps: seq<Step>)
    requires start + |steps| < TWO_TO_32 && OneServingRun(lib, cfg, start, steps)
    ensures OrderedNonces(Run(lib, cfg, start, steps))
  {
    if steps != [] {
      var s, step := Run(lib, cfg, start, steps[..|steps| - 1]), steps[|steps| - 1];
      JoinNoncesIncrease(lib, cfg, start, steps[..|steps| - 1]);
      RunsKeepNonces(lib, cfg, start, steps[..|steps| - 1]);
      if Enabled(s, step) {
        match step
        case TakeNonce(t, jr) => TakeKeepsOrderedNonces(lib, cfg, s, t, jr);
        case Publish(t) => PublishKeepsOrderedNonces(lib, cfg, s, t);
        case _ => OthersKeepNonces(lib, cfg, s, step);
      }
    }
  }

  // Downlink counters of concurrent pushes

  /** Step `a` of the run reads the counter of joinInfo `i`. */
  predicate ReadsAt(lib: Library, cfg: Config, start: nat, steps: seq<Step>, a: nat, i: nat) {
    && a < |steps| && steps[a].ReadCounter?
    && var s := Run(lib, cfg, start, steps[..a]); Enabled(s, steps[a]) && s.tasks[steps[a].t].info == i
  }

  /** Step `a` of the run steps the counter of joinInfo `i` on. */
  predicate BumpsAt(lib: Library, cfg: Config, start: nat, steps: seq<Step>, a: nat, i: nat) {
    && a < |steps| && steps[a].Bump?
    && var s := Run(lib, cfg, start, steps[..a]); Enabled(s, steps[a]) && s.sessions[steps[a].devEui] == i
  }

  function Counter(s: State, i: nat): Uint32 {
    if i < |s.infos| then s.infos[i].fcntDown else 0
  }

  /** The counter of joinInfo `i` before step `a`; a push that reads it there is framed with its predecessor. */
  function CounterBefore(lib: Library, cfg: Config, start: nat, steps: seq<Step>, a: nat, i: nat): Uint32
    requires a <= |steps|
  {
    Counter(Run(lib, cfg, start, steps[..a]), i)
  }

  lemma StepCounter(lib: Library, cfg: Config, s: State, step: Step, i: nat)
    requires Enabled(s, step)
    ensures Counter(Next(lib, cfg, s, step), i) ==
      if step.Bump? && s.sessions[step.devEui] == i then Successor(Counter(s, i)) else Counter(s, i)
  {
  }

  lemma PrefixCounter(lib: Library, cfg: Config, start: nat, steps: seq<Step>, a: nat, i: nat)
    requires a < |steps|
    ensures CounterBefore(lib, cfg, start, steps, a + 1, i) ==
      if BumpsAt(lib, cfg, start, steps, a, i) then Successor(CounterBefore(lib, cfg, start, steps, a, i))
      else CounterBefore(lib, cfg, start, steps, a, i)
  {
    var s := Run(lib, cfg, start, steps[..a]);
    assert steps[..a + 1] == steps[..a] + [steps[a]];
    RunAppend(lib, cfg, start, steps[..a], steps[a]);
    if Enabled(s, steps[a]) {
      StepCounter(lib, cfg, s, steps[a], i);
    }
  }

  lemma {:induction false} CounterBound(lib: Library, cfg: Config, start: nat, steps: seq<Step>, a: nat, i: nat)
    requires a <= |steps|
    ensures CounterBefore(lib, cfg, start, steps, a, i) <= a
  {
    if a > 0 {
      CounterBound(lib, cfg, start, steps, a - 1, i);
      PrefixCounter(lib, cfg, start, steps, a - 1, i);
    }
  }

  lemma {:induction false} CounterGrows(lib: Library, cfg: Config, start: nat, steps: seq<Step>, a: nat, b: nat, i: nat)
    requires a <= b <= |steps| < TWO_TO_32
    ensures CounterBefore(lib, cfg, start, steps, a, i) <= CounterBefore(lib, cfg, start, steps, b, i)
    ensures CounterBefore(lib, cfg, start, steps, a, i) == CounterBefore(lib, cfg, start, steps, b, i)
      <==> forall k: nat :: a <= k < b ==> !BumpsAt(lib, cfg, start, steps, k, i)
    decreases b - a
  {
    if a < b {
      CounterGrows(lib, cfg, start, steps, a, b - 1, i);
      CounterBound(lib, cfg, start, steps, b - 1, i);
      PrefixCounter(lib, cfg, start, steps, b - 1, i);
    }
  }

  /** Two pushes of one join carry the same frame counter exactly when no push stepped that counter on between their
      reads: the counter is read after the lock that stepped it on was released. */
  lemma SharedCounterIff(lib: Library, cfg: Config, start: nat, steps: seq<Step>, a: nat, b: nat, i: nat)
    requires a < b && |steps| < TWO_TO_32
    requires ReadsAt(lib, cfg, start, steps, a, i) && ReadsAt(lib, cfg, start, steps, b, i)
    ensures Predecessor(CounterBefore(lib, cfg, start, steps, a, i))
         == Predecessor(CounterBefore(lib, cfg, start, steps, b, i))
      <==> forall k: nat :: a < k < b ==> !BumpsAt(lib, cfg, start, steps, k, i)
  {
    CounterGrows(lib, cfg, start, steps, a, b, i);
    assert !BumpsAt(lib, cfg, start, steps, a, i);
  }

  // Two runs that show it

  /** A join-request has been answered up to its DIID, and `n` pushes to the device are about to read the counter. */
  lemma AnsweredOnce(lib: Library, cfg: Config, start: nat, jr: Bridge.Jreq) returns (steps: seq<Step>)
    requires Answerable(cfg, jr, Successor(start))
    ensures var s, n := Run(lib, cfg, start, steps), Successor(start);
      && s.infos == [JoinInfo(n, jr.devNonce, 0)] && s.sessions == map[jr.devEui := 0] && s.diid == 0 && s.sent == []
      && s.tasks == map[0 := Answered(jr, lib.accept(n))] && n < TWO_TO_24
  {
    assert Run(lib, cfg, start, []) == Initial(start);
    RunAppend(lib, cfg, start, [], TakeNonce(0, jr));
    RunAppend(lib, cfg, start, [] + [TakeNonce(0, jr)], Publish(0));
    steps := [] + [TakeNonce(0, jr)] + [Publish(0)];
  }

  lemma PushBegun(lib: Library, cfg: Config, start: nat, steps: seq<Step>, t: nat, d: string, data: Bytes)
    returns (longer: seq<Step>)
    requires var s := Run(lib, cfg, start, steps); t !in s.tasks && d in s.sessions && s.sessions[d] < |s.infos|
    ensures longer == steps + [Bump(t, d, 1, data)]
    ensures var s, i := Run(lib, cfg, start, steps), Run(lib, cfg, start, steps).sessions[d];
      Run(lib, cfg, start, longer) ==
        s.(infos := s.infos[i := Stepped(s.infos[i])], tasks := s.tasks[t := Pushing(i, d, 1, data)])
  {
    RunAppend(lib, cfg, start, steps, Bump(t, d, 1, data));
    longer := steps + [Bump(t, d, 1, data)];
  }

  lemma CounterIsRead(lib: Library, cfg: Config, start: nat, steps: seq<Step>, t: nat)
    requires var s := Run(lib, cfg, start, steps);
      Enabled(s, ReadCounter(t)) && s.infos[s.tasks[t].info].joinNonce < TWO_TO_24
    ensures var s := Run(lib, cfg, start, steps);
            var k := s.tasks[t];
      Run(lib, cfg, start, steps + [ReadCounter(t)]) == s.(tasks :=
        s.tasks[t := Framed(k.info, Predecessor(s.infos[k.info].fcntDown), k.devEui, k.fport, k.data)])
  {
    RunAppend(lib, cfg, start, steps, ReadCounter(t));
  }

  lemma TakesDiid(lib: Library, cfg: Config, s: State, t: nat, m: Dnmsg)
    requires Enabled(s, TakeDiid(t)) && m == MessageOf(lib, cfg, s, t, s.diid + 1)
    ensures Exec(lib, cfg, s, TakeDiid(t)) == s.(diid := s.diid + 1, tasks := s.tasks[t := Numbered(m)])
  {
  }

  lemma Writes(lib: Library, cfg: Config, s: State, t: nat, m: Dnmsg)
    requires t in s.tasks && s.tasks[t] == Numbered(m)
    ensures Exec(lib, cfg, s, Write(t, true)) == s.(tasks := s.tasks - {t}, sent := s.sent + [m])
  {
  }

  lemma DiidIsTaken(lib: Library, cfg: Config, start: nat, steps: seq<Step>, t: nat) returns (m: Dnmsg)
    requires Enabled(Run(lib, cfg, start, steps), TakeDiid(t))
    ensures var s := Run(lib, cfg, start, steps);
      && m.diid == s.diid + 1
      && Run(lib, cfg, start, steps + [TakeDiid(t)]) == s.(diid := s.diid + 1, tasks := s.tasks[t := Numbered(m)])
  {
    var s := Run(lib, cfg, start, steps);
    m := MessageOf(lib, cfg, s, t, s.diid + 1);
    RunAppend(lib, cfg, start, steps, TakeDiid(t));
    TakesDiid(lib, cfg, s, t, m);
  }

  lemma IsWritten(lib: Library, cfg: Config, start: nat, steps: seq<Step>, t: nat)
    requires Enabled(Run(lib, cfg, start, steps), Write(t, true))
    ensures var s := Run(lib, cfg, start, steps);
      Run(lib, cfg, start, steps + [Write(t, true)]) == s.(tasks := s.tasks - {t}, sent := s.sent + [s.tasks[t].m])
  {
    RunAppend(lib, cfg, start, steps, Write(t, true));
  }

  /** Unserialised, a push can overtake the reply to the join it rests on: DIID 2 is written before DIID 1. */
  lemma PushOvertakesReply(lib: Library, cfg: Config, start: nat, jr: Bridge.Jreq) returns (steps: seq<Step>)
    requires Answerable(cfg, jr, Successor(start))
    ensures Diids(Run(lib, cfg, start, steps).sent) == [2, 1]
  {
    var a := AnsweredOnce(lib, cfg, start, jr);
    var b := PushBegun(lib, cfg, start, a, 1, jr.devEui, []);
    CounterIsRead(lib, cfg, start, b, 1);
    var c := b + [ReadCounter(1)];
    var reply := DiidIsTaken(lib, cfg, start, c, 0);
    var push := DiidIsTaken(lib, cfg, start, c + [TakeDiid(0)], 1);
    var d := c + [TakeDiid(0)] + [TakeDiid(1)];
    IsWritten(lib, cfg, start, d, 1);
    IsWritten(lib, cfg, start, d + [Write(1, true)], 0);
    steps := d + [Write(1, true)] + [Write(0, true)];
    assert Run(lib, cfg, start, steps).sent == [push, reply];
  }

  /** Two concurrent pushes can be framed with the same counter, which leaves their payloads under one keystream. */
  lemma PushesShareCounter(lib: Library, cfg: Config, start: nat, jr: Bridge.Jreq, x: Bytes, y: Bytes)
    returns (steps: seq<Step>)
    requires Answerable(cfg, jr, Successor(start))
    ensures var tasks := Run(lib, cfg, start, steps).tasks;
      && 1 in tasks && tasks[1] == Framed(0, 1, jr.devEui, 1, x)
      && 2 in tasks && tasks[2] == Framed(0, 1, jr.devEui, 1, y)
  {
    var a := AnsweredOnce(lib, cfg, start, jr);
    var b := PushBegun(lib, cfg, start, a, 1, jr.devEui, x);
    var c := PushBegun(lib, cfg, start, b, 2, jr.devEui, y);
    CounterIsRead(lib, cfg, start, c, 1);
    CounterIsRead(lib, cfg, start, c + [ReadCounter(1)], 2);
    steps := c + [ReadCounter(1)] + [ReadCounter(2)];
  }

  // Undisturbed calls

  /** Every device points to a joinInfo of its own. */
  ghost predicate GoodPointers(s: State) {
    && (forall d <- s.sessions :: s.sessions[d] < |s.infos|)
    && (forall d <- s.sessions, e <- s.sessions :: s.sessions[d] == s.sessions[e] ==> d == e)
  }

  lemma {:induction false} PointersAreGood(lib: Library, cfg: Config, start: nat, steps: seq<Step>)
    ensures GoodPointers(Run(lib, cfg, start, steps))
  {
    if steps != [] {
      PointersAreGood(lib, cfg, start, steps[..|steps| - 1]);
    }
  }

  /** What a caller that finds the server at rest sees of it. */
  function Seen(s: State): Lns {
    Lns(s.joinNonce, s.diid, map d | d in s.sessions && s.sessions[d] < |s.infos| :: s.infos[s.sessions[d]])
  }

  lemma SeenAt(s: State, d: string)
    requires GoodPointers(s)
    ensures d in Seen(s).sessions <==> d in s.sessions
    ensures d in s.sessions ==> Seen(s).sessions[d] == s.infos[s.sessions[d]]
  {
  }

  lemma PointersAfterJoin(s: State, d: string, info: JoinInfo, s': State)
    requires GoodPointers(s) && s'.infos == s.infos + [info] && s'.sessions == s.sessions[d := |s.infos|]
    ensures GoodPointers(s')
  {
    assert forall e <- s.sessions :: s'.sessions[e] == if e == d then |s.infos| else s.sessions[e];
  }

  lemma SeenAfterJoin(s: State, d: string, info: JoinInfo, s': State)
    requires GoodPointers(s) && s'.infos == s.infos + [info] && s'.sessions == s.sessions[d := |s.infos|]
    ensures Seen(s') == Lns(s'.joinNonce, s'.diid, Seen(s).sessions[d := info])
  {
    PointersAfterJoin(s, d, info, s');
    var before, after := Seen(s).sessions, Seen(s').sessions;
    forall e: string
      ensures e in after <==> e in before[d := info]
      ensures e in after ==> after[e] == before[d := info][e]
    {
      SeenAt(s, e);
      SeenAt(s', e);
    }
    assert after == before[d := info];
  }

  lemma SeenAfterBump(s: State, d: string, s': State)
    requires GoodPointers(s) && d in s.sessions && s'.sessions == s.sessions
    requires s'.infos == s.infos[s.sessions[d] := Stepped(s.infos[s.sessions[d]])]
    ensures GoodPointers(s')
    ensures Seen(s') == Lns(s'.joinNonce, s'.diid, Seen(s).sessions[d := Stepped(s.infos[s.sessions[d]])])
  {
    var before, after := Seen(s).sessions, Seen(s').sessions;
    var bumped := before[d := Stepped(s.infos[s.sessions[d]])];
    forall e: string
      ensures e in after <==> e in bumped
      ensures e in after ==> after[e] == bumped[e]
    {
      SeenAt(s, e);
      SeenAt(s', e);
    }
    assert after == bumped;
  }

  lemma TakesNonce(lib: Library, cfg: Config, s: State, t: nat, jr: Bridge.Jreq, n: nat, pdu: string)
    requires t !in s.tasks && n == Successor(s.joinNonce) && Answerable(cfg, jr, n) && pdu == lib.accept(n)
    ensures Exec(lib, cfg, s, TakeNonce(t, jr)) == s.(joinNonce := n, tasks := s.tasks[t := Answering(jr, n, pdu)])
  {
  }

  lemma Publishes(lib: Library, cfg: Config, s: State, t: nat, jr: Bridge.Jreq, n: nat, pdu: string)
    requires t in s.tasks && s.tasks[t] == Answering(jr, n, pdu)
    ensures Exec(lib, cfg, s, Publish(t)) ==
      s.(infos := s.infos + [JoinInfo(n, jr.devNonce, 0)], sessions := s.sessions[jr.devEui := |s.infos|],
         tasks := s.tasks[t := Answered(jr, pdu)])
  {
  }

  lemma Bumps(lib: Library, cfg: Config, s: State, t: nat, d: string, fport: byte, data: Bytes, i: nat)
    requires t !in s.tasks && d in s.sessions && s.sessions[d] == i < |s.infos|
    ensures Exec(lib, cfg, s, Bump(t, d, fport, data)) ==
      s.(infos := s.infos[i := Stepped(s.infos[i])], tasks := s.tasks[t := Pushing(i, d, fport, data)])
  {
  }

  lemma Reads(lib: Library, cfg: Config, s: State, t: nat, d: string, fport: byte, data: Bytes, i: nat)
    requires t in s.tasks && s.tasks[t] == Pushing(i, d, fport, data) && i < |s.infos|
    requires s.infos[i].joinNonce < TWO_TO_24
    ensures Exec(lib, cfg, s, ReadCounter(t)) ==
      s.(tasks := s.tasks[t := Framed(i, Predecessor(s.infos[i].fcntDown), d, fport, data)])
  {
  }

  lemma NumbersAndWrites(lib: Library, cfg: Config, s: State, t: nat, m: Dnmsg)
    requires Enabled(s, TakeDiid(t)) && m == MessageOf(lib, cfg, s, t, s.diid + 1)
    ensures var s' := Exec(lib, cfg, Exec(lib, cfg, s, TakeDiid(t)), Write(t, true));
      s' == s.(diid := s.diid + 1, tasks := s'.tasks, sent := s.sent + [m]) && t !in s'.tasks
  {
    TakesDiid(lib, cfg, s, t, m);
    Writes(lib, cfg, s.(diid := s.diid + 1, tasks := s.tasks[t := Numbered(m)]), t, m);
  }

  lemma FourSteps(
    lib: Library, cfg: Config, start: nat, steps: seq<Step>, a: Step, b: Step, c: Step, d: Step)
    ensures Run(lib, cfg, start, steps + [a] + [b] + [c] + [d]) ==
      Exec(lib, cfg, Exec(lib, cfg, Exec(lib, cfg, Exec(lib, cfg, Run(lib, cfg, start, steps), a), b), c), d)
  {
    RunAppend(lib, cfg, start, steps, a);
    RunAppend(lib, cfg, start, steps + [a], b);
    RunAppend(lib, cfg, start, steps + [a] + [b], c);
    RunAppend(lib, cfg, start, steps + [a] + [b] + [c], d);
  }

  function Answer(lib: Library, cfg: Config, s: State, t: nat, jr: Bridge.Jreq): State {
    var published := Exec(lib, cfg, Exec(lib, cfg, s, TakeNonce(t, jr)), Publish(t));
    Exec(lib, cfg, Exec(lib, cfg, published, TakeDiid(t)), Write(t, true))
  }

  lemma AnswerIs(lib: Library, cfg: Config, s: State, t: nat, jr: Bridge.Jreq, n: nat, m: Dnmsg)
    requires t !in s.tasks && n == Successor(s.joinNonce) && Answerable(cfg, jr, n)
    requires m == Dnmsg(jr.devEui, 0, s.diid + 1, lib.accept(n), cfg.rxDelay, jr.dr, jr.freq, cfg.rx2Dr, cfg.rx2Freq,
                        jr.info.xtime, jr.info.rctx)
    ensures var s' := Answer(lib, cfg, s, t, jr);
      && s' == State(n, s.diid + 1, s.infos + [JoinInfo(n, jr.devNonce, 0)], s.sessions[jr.devEui := |s.infos|],
                     s'.tasks, s.sent + [m])
      && t !in s'.tasks
  {
    var pdu := lib.accept(n);
    TakesNonce(lib, cfg, s, t, jr, n, pdu);
    var one := s.(joinNonce := n, tasks := s.tasks[t := Answering(jr, n, pdu)]);
    Publishes(lib, cfg, one, t, jr, n, pdu);
    var two := one.(infos := s.infos + [JoinInfo(n, jr.devNonce, 0)], sessions := s.sessions[jr.devEui := |s.infos|],
                    tasks := one.tasks[t := Answered(jr, pdu)]);
    assert m == MessageOf(lib, cfg, two, t, s.diid + 1);
    NumbersAndWrites(lib, cfg, two, t, m);
  }

  /** In every reachable state, a join-request answered without interruption is HandleJreq. */
  lemma UndisturbedAnswer(
    p: Primitives, cfg: Config, start: nat, steps: seq<Step>, t: nat, jr: Bridge.Jreq, lns: Lns, m: Dnmsg)
    requires var s := Run(LibraryOf(p, cfg), cfg, start, steps);
      t !in s.tasks && HandleJreq(p, cfg, Seen(s), jr) == (lns, Some(m))
    ensures var s, s' := Run(LibraryOf(p, cfg), cfg, start, steps),
        Run(LibraryOf(p, cfg), cfg, start,
            steps + [TakeNonce(t, jr)] + [Publish(t)] + [TakeDiid(t)] + [Write(t, true)]);
      Seen(s') == lns && s'.sent == s.sent + [m] && t !in s'.tasks
  {
    var lib := LibraryOf(p, cfg);
    var s := Run(lib, cfg, start, steps);
    var n := Successor(s.joinNonce);
    PointersAreGood(lib, cfg, start, steps);
    AnswerIs(lib, cfg, s, t, jr, n, m);
    SeenAfterJoin(s, jr.devEui, JoinInfo(n, jr.devNonce, 0), Answer(lib, cfg, s, t, jr));
    FourSteps(lib, cfg, start, steps, TakeNonce(t, jr), Publish(t), TakeDiid(t), Write(t, true));
  }

  function PushAlone(lib: Library, cfg: Config, s: State, t: nat, d: string, fport: byte, data: Bytes): State {
    var framed := Exec(lib, cfg, Exec(lib, cfg, s, Bump(t, d, fport, data)), ReadCounter(t));
    Exec(lib, cfg, Exec(lib, cfg, framed, TakeDiid(t)), Write(t, true))
  }

  lemma PushAloneIs(lib: Library, cfg: Config, s: State, t: nat, d: string, fport: byte, data: Bytes, i: nat, m: Dnmsg)
    requires t !in s.tasks && d in s.sessions && s.sessions[d] == i < |s.infos| && s.infos[i].joinNonce < TWO_TO_24
    requires m == PushMessage(cfg, d, s.diid + 1, lib.frame(s.infos[i], fport, data))
    ensures var s' := PushAlone(lib, cfg, s, t, d, fport, data);
      && s' == State(s.joinNonce, s.diid + 1, s.infos[i := Stepped(s.infos[i])], s.sessions, s'.tasks, s.sent + [m])
      && t !in s'.tasks
  {
    Bumps(lib, cfg, s, t, d, fport, data, i);
    var one := s.(infos := s.infos[i := Stepped(s.infos[i])], tasks := s.tasks[t := Pushing(i, d, fport, data)]);
    Reads(lib, cfg, one, t, d, fport, data, i);
    var two := one.(tasks := one.tasks[t := Framed(i, Predecessor(one.infos[i].fcntDown), d, fport, data)]);
    assert one.infos[i].(fcntDown := Predecessor(one.infos[i].fcntDown)) == s.infos[i];
    assert m == MessageOf(lib, cfg, two, t, s.diid + 1);
    NumbersAndWrites(lib, cfg, two, t, m);
  }

  lemma PushAloneIsSeen(
    p: Primitives, cfg: Config, s: State, t: nat, d: string, fport: byte, data: Bytes, lns: Lns, m: Dnmsg)
    requires GoodPointers(s) && t !in s.tasks && PushClassC(p, cfg, Seen(s), d, fport, data) == (lns, Some(m))
    ensures var s' := PushAlone(LibraryOf(p, cfg), cfg, s, t, d, fport, data);
      Seen(s') == lns && s'.sent == s.sent + [m] && t !in s'.tasks
  {
    var lib := LibraryOf(p, cfg);
    PushAloneIs(lib, cfg, s, t, d, fport, data, s.sessions[d], m);
    SeenAfterBump(s, d, PushAlone(lib, cfg, s, t, d, fport, data));
  }

  /** In every reachable state, a push run without interruption is PushClassC. */
  lemma UndisturbedPush(
    p: Primitives, cfg: Config, start: nat, steps: seq<Step>, t: nat, d: string, fport: byte, data: Bytes, lns: Lns,
    m: Dnmsg)
    requires var s := Run(LibraryOf(p, cfg), cfg, start, steps);
      t !in s.tasks && PushClassC(p, cfg, Seen(s), d, fport, data) == (lns, Some(m))
    ensures var s, s' := Run(LibraryOf(p, cfg), cfg, start, steps),
        Run(LibraryOf(p, cfg), cfg, start,
            steps + [Bump(t, d, fport, data)] + [ReadCounter(t)] + [TakeDiid(t)] + [Write(t, true)]);
      Seen(s') == lns && s'.sent == s.sent + [m] && t !in s'.tasks
  {
    var lib := LibraryOf(p, cfg);
    PointersAreGood(lib, cfg, start, steps);
    PushAloneIsSeen(p, cfg, Run(lib, cfg, start, steps), t, d, fport, data, lns, m);
    FourSteps(lib, cfg, start, steps, Bump(t, d, fport, data), ReadCounter(t), TakeDiid(t), Write(t, true));
  }
}
