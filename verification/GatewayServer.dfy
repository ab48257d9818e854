/** internal/transport/server.go with the handler of internal/gateway/gateway.go: the accept loop, one goroutine
    per connection, the gateway's registry, and Close, interleaved lock section by lock section. */
module GatewayServer {
  import opened Traces

  /** Connections are numbered; DevEUIs are strings. */
  type Conn = nat

  /** Where the accept loop stands. `Spawning` has counted the connection but not started its goroutine. */
  datatype AcceptPc = Listening | Failed | Got(c: Conn) | Refusing(c: Conn) | Spawning(c: Conn) | Exiting | Gone

  /** Where a connection's goroutine stands: in the handler, past its deferred unregister, out of the active set,
      closed. */
  datatype HandlerPc = Serving | Left | Dropped | Shut

  /** Where the call of Close stands: past its lock section, past closing the listener, past Wait. */
  datatype ClosePc = NotCalled | Marked | Waiting | Returned

  /** `accepted` and `shut` are history: connections the listener returned, and connections closed on our side.
      `announced` is the handler's local devEUI. */
  datatype State = State(
    accept: AcceptPc, closer: ClosePc, closed: bool, listening: bool, wg: int,
    active: set<Conn>, handlers: map<Conn, HandlerPc>, accepted: set<Conn>, shut: set<Conn>,
    announced: map<Conn, string>, byDevEui: map<string, Conn>)

  const INITIAL := State(Listening, NotCalled, false, true, 1, {}, map[], {}, {}, map[], map[])

  datatype Step =
    | AcceptConn(c: Conn) | AcceptError | CheckClosed | Admit | Refuse | Spawn | Exit
    | Hello(c: Conn, devEui: string) | Leave(c: Conn) | Drop(c: Conn) | Shutdown(c: Conn) | Finish(c: Conn)
    | Mark | CloseListener | WaitReturns

  predicate At(s: State, c: Conn, pc: HandlerPc) {
    c in s.handlers && s.handlers[c] == pc
  }

  predicate Enabled(s: State, step: Step) {
    match step
    case AcceptConn(c) => s.accept.Listening? && s.listening && c !in s.accepted
    case AcceptError => s.accept.Listening?
    case CheckClosed => s.accept.Failed?
    case Admit => s.accept.Got?
    case Refuse => s.accept.Refusing?
    case Spawn => s.accept.Spawning?
    case Exit => s.accept.Exiting?
    case Hello(c, _) => At(s, c, Serving)
    case Leave(c) => At(s, c, Serving)
    case Drop(c) => At(s, c, Left)
    case Shutdown(c) => At(s, c, Dropped)
    case Finish(c) => At(s, c, Shut)
    case Mark => s.closer.NotCalled?
    case CloseListener => s.closer.Marked?
    case WaitReturns => s.closer.Waiting? && s.wg == 0
  }

  function Announced(s: State, c: Conn): string {
    if c in s.announced then s.announced[c] else ""
  }

  /** The handler's deferred unregister: by DevEUI, whichever connection the entry belongs to. */
  function Unregistered(s: State, c: Conn): map<string, Conn> {
    if Announced(s, c) == "" then s.byDevEui else s.byDevEui - {Announced(s, c)}
  }

  function Next(s: State, step: Step): State
    requires Enabled(s, step)
  {
    match step
    case AcceptConn(c) => s.(accept := Got(c), accepted := s.accepted + {c})
    case AcceptError => s.(accept := Failed)
    case CheckClosed => s.(accept := if s.closed then Exiting else Listening)
    case Admit =>
      if s.closed then s.(accept := Refusing(s.accept.c))
      else s.(accept := Spawning(s.accept.c), active := s.active + {s.accept.c}, wg := s.wg + 1)
    case Refuse => s.(accept := Exiting, shut := s.shut + {s.accept.c})
    case Spawn => s.(accept := Listening, handlers := s.handlers[s.accept.c := Serving])
    case Exit => s.(accept := Gone, wg := s.wg - 1)
    case Hello(c, devEui) => s.(announced := s.announced[c := devEui], byDevEui := s.byDevEui[devEui := c])
    case Leave(c) => s.(handlers := s.handlers[c := Left], byDevEui := Unregistered(s, c))
    case Drop(c) => s.(handlers := s.handlers[c := Dropped], active := s.active - {c})
    case Shutdown(c) => s.(handlers := s.handlers[c := Shut], shut := s.shut + {c})
    case Finish(c) => s.(handlers := s.handlers - {c}, wg := s.wg - 1)
    case Mark => s.(closer := Marked, closed := true, shut := s.shut + s.active)
    case CloseListener => s.(closer := Waiting, listening := false)
    case WaitReturns => s.(closer := Returned)
  }

  /** The states of a run; a step that is not enabled is skipped. */
  function Run(steps: seq<Step>): State {
    if steps == [] then INITIAL
    else
      var s := Run(steps[..|steps| - 1]);
      if Enabled(s, steps[|steps| - 1]) then Next(s, steps[|steps| - 1]) else s
  }

  // Shutdown

  /** The connection in the accept loop's hands. */
  function InHand(s: State): set<Conn> {
    match s.accept
    case Got(c) => {c}
    case Refusing(c) => {c}
    case Spawning(c) => {c}
    case _ => {}
  }

  ghost predicate Counted(s: State) {
    s.wg == |s.handlers| + (if s.accept.Gone? then 0 else 1) + (if s.accept.Spawning? then 1 else 0)
  }

  ghost predicate Accounted(s: State) {
    && s.handlers.Keys !! InHand(s) && s.handlers.Keys + InHand(s) <= s.accepted
    && (forall c :: c in s.active <==> At(s, c, Serving) || At(s, c, Left) || s.accept == Spawning(c))
    && (forall c <- s.accepted :: c in s.shut || c in s.handlers || c in InHand(s))
    && (forall c <- s.handlers :: s.handlers[c] == Shut ==> c in s.shut)
  }

  ghost predicate ClosesAll(s: State) {
    && (s.closed <==> !s.closer.NotCalled?)
    && (s.closed ==> s.active <= s.shut)
    && (s.accept.Refusing? || s.accept.Exiting? || s.accept.Gone? ==> s.closed)
    && (s.closer.Returned? ==> s.accept.Gone? && s.handlers == map[])
  }

  ghost predicate Invariant(s: State) {
    Counted(s) && Accounted(s) && ClosesAll(s)
  }

  /** The steps of the accept loop. */
  predicate AcceptStep(step: Step) {
    || step.AcceptConn? || step.AcceptError? || step.CheckClosed?
    || step.Admit? || step.Refuse? || step.Spawn? || step.Exit?
  }

  /** The steps of a handler's goroutine. */
  predicate HandlerStep(step: Step) {
    step.Hello? || step.Leave? || step.Drop? || step.Shutdown? || step.Finish?
  }

  lemma SpawnKeepsCount(s: State)
    requires Counted(s) && Accounted(s) && Enabled(s, Spawn)
    ensures Counted(Next(s, Spawn))
  {
    assert s.handlers[s.accept.c := Serving].Keys == s.handlers.Keys + {s.accept.c};
  }

  lemma FinishKeepsCount(s: State, c: Conn)
    requires Counted(s) && Enabled(s, Finish(c))
    ensures Counted(Next(s, Finish(c)))
  {
    assert s.handlers.Keys == (s.handlers - {c}).Keys + {c};
  }

  lemma MoveKeepsCount(s: State, c: Conn, pc: HandlerPc)
    requires c in s.handlers
    ensures |s.handlers[c := pc]| == |s.handlers|
  {
    assert s.handlers[c := pc].Keys == s.handlers.Keys;
  }

  lemma StepKeepsCount(s: State, step: Step)
    requires Counted(s) && Accounted(s) && Enabled(s, step)
    ensures Counted(Next(s, step))
  {
    match step
    case Spawn => SpawnKeepsCount(s);
    case Finish(c) => FinishKeepsCount(s, c);
    case Leave(c) => MoveKeepsCount(s, c, Left);
    case Drop(c) => MoveKeepsCount(s, c, Dropped);
    case Shutdown(c) => MoveKeepsCount(s, c, Shut);
    case _ =>
  }

  lemma AcceptKeepsAccount(s: State, step: Step)
    requires Accounted(s) && Enabled(s, step) && AcceptStep(step)
    ensures Accounted(Next(s, step))
  {
  }

  lemma HandlerKeepsAccount(s: State, step: Step)
    requires Accounted(s) && Enabled(s, step) && HandlerStep(step)
    ensures Accounted(Next(s, step))
  {
  }

  lemma StepKeepsAccount(s: State, step: Step)
    requires Accounted(s) && Enabled(s, step)
    ensures Accounted(Next(s, step))
  {
    if AcceptStep(step) {
      AcceptKeepsAccount(s, step);
    } else if HandlerStep(step) {
      HandlerKeepsAccount(s, step);
    }
  }

  lemma StepKeepsClosing(s: State, step: Step)
    requires Invariant(s) && Enabled(s, step)
    ensures ClosesAll(Next(s, step))
  {
  }

  lemma {:induction false} RunsKeepInvariant(steps: seq<Step>)
    ensures Invariant(Run(steps))
  {
    if steps != [] {
      var s, step := Run(steps[..|steps| - 1]), steps[|steps| - 1];
      RunsKeepInvariant(steps[..|steps| - 1]);
      if Enabled(s, step) {
        StepKeepsCount(s, step);
        StepKeepsAccount(s, step);
        StepKeepsClosing(s, step);
      }
    }
  }

  /** In every reachable state the WaitGroup counts the accept loop, the goroutines and the one about to start. In
      particular it is never raised from zero while Close waits. */
  lemma WaitGroupCounts(steps: seq<Step>)
    ensures Counted(Run(steps))
    ensures Run(steps).accept.Got? ==> Run(steps).wg >= 1
  {
    RunsKeepInvariant(steps);
  }

  /** When Close has returned, however the goroutines were scheduled: no handler is running, the accept loop is
      gone so none can start, the active set is empty, and every connection ever accepted has been closed. */
  lemma ShutdownIsComplete(steps: seq<Step>, more: seq<Step>)
    requires Run(steps).closer.Returned?
    ensures var s := Run(steps + more);
      s.handlers == map[] && s.accept.Gone? && s.active == {} && s.accepted <= s.shut && s == Run(steps)
  {
    ReturnedStays(steps, more);
    RunsKeepInvariant(steps);
  }

  lemma NoStepAfterReturn(s: State, step: Step)
    requires ClosesAll(s) && s.closer.Returned?
    ensures !Enabled(s, step)
  {
  }

  lemma {:induction false} ReturnedStays(steps: seq<Step>, more: seq<Step>)
    requires Run(steps).closer.Returned?
    ensures Run(steps + more) == Run(steps)
  {
    if more == [] {
      assert steps + more == steps;
    } else {
      assert (steps + more)[..|steps + more| - 1] == steps + more[..|more| - 1];
      ReturnedStays(steps, more[..|more| - 1]);
      RunsKeepInvariant(steps);
      NoStepAfterReturn(Run(steps), more[|more| - 1]);
    }
  }

  /** Once Close has marked the server, the connection of every handler still serving has been closed, so its next
      read fails. */
  lemma ServingConnectionsAreClosed(steps: seq<Step>, c: Conn)
    requires Run(steps).closed && At(Run(steps), c, Serving)
    ensures c in Run(steps).shut
  {
    RunsKeepInvariant(steps);
  }

  // The registry

  /** Each connection announces one DevEUI, and not the empty one. */
  predicate OneIdentity(s: State, step: Step) {
    step.Hello? ==> step.devEui != "" && Announced(s, step.c) in {"", step.devEui}
  }

  /** No two connections being served announce the same DevEUI. */
  predicate Distinct(s: State, step: Step) {
    step.Hello? ==> forall c <- s.handlers :: s.handlers[c] == Serving && Announced(s, c) == step.devEui ==> c == step.c
  }

  predicate OneIdentityRun(steps: seq<Step>) {
    steps == [] || (OneIdentityRun(steps[..|steps| - 1]) && OneIdentity(Run(steps[..|steps| - 1]), steps[|steps| - 1]))
  }

  predicate DistinctRun(steps: seq<Step>) {
    steps == [] || (DistinctRun(steps[..|steps| - 1]) && Distinct(Run(steps[..|steps| - 1]), steps[|steps| - 1]))
  }

  /** Every entry belongs to a connection being served, which announced it. */
  ghost predicate Sound(s: State) {
    && (forall e <- s.byDevEui :: At(s, s.byDevEui[e], Serving) && Announced(s, s.byDevEui[e]) == e && e != "")
    && (forall c <- s.announced :: c in s.accepted && c !in InHand(s))
  }

  /** Every live connection that has announced itself is registered. */
  ghost predicate Complete(s: State) {
    forall c <- s.handlers :: s.handlers[c] == Serving && Announced(s, c) != "" ==>
      Announced(s, c) in s.byDevEui && s.byDevEui[Announced(s, c)] == c
  }

  ghost predicate Exact(s: State) {
    Sound(s) && Complete(s)
  }

  lemma AcceptKeepsSound(s: State, step: Step)
    requires Accounted(s) && Sound(s) && Enabled(s, step) && AcceptStep(step)
    ensures Sound(Next(s, step))
  {
  }

  lemma HandlerKeepsSound(s: State, step: Step)
    requires Accounted(s) && Sound(s) && Enabled(s, step) && HandlerStep(step) && OneIdentity(s, step)
    ensures Sound(Next(s, step))
  {
  }

  lemma StepKeepsSound(s: State, step: Step)
    requires Accounted(s) && Sound(s) && Enabled(s, step) && OneIdentity(s, step)
    ensures Sound(Next(s, step))
  {
    if AcceptStep(step) {
      AcceptKeepsSound(s, step);
    } else if HandlerStep(step) {
      HandlerKeepsSound(s, step);
    }
  }

  lemma SpawnKeepsComplete(s: State)
    requires Accounted(s) && Exact(s) && Enabled(s, Spawn)
    ensures Complete(Next(s, Spawn))
  {
    assert s.accept.c !in s.announced;
  }

  lemma HelloKeepsComplete(s: State, step: Step)
    requires Exact(s) && Enabled(s, step) && step.Hello? && OneIdentity(s, step) && Distinct(s, step)
    ensures Complete(Next(s, step))
  {
  }

  lemma LeaveKeepsComplete(s: State, c: Conn)
    requires Exact(s) && Enabled(s, Leave(c))
    ensures Complete(Next(s, Leave(c)))
  {
  }

  lemma OtherStepsKeepComplete(s: State, step: Step)
    requires Exact(s) && Enabled(s, step) && !step.Spawn? && !step.Hello? && !step.Leave?
    ensures Complete(Next(s, step))
  {
  }

  lemma StepKeepsExact(s: State, step: Step)
    requires Accounted(s) && Exact(s) && Enabled(s, step) && OneIdentity(s, step) && Distinct(s, step)
    ensures Exact(Next(s, step))
  {
    StepKeepsSound(s, step);
    match step
    case Spawn => SpawnKeepsComplete(s);
    case Hello(_, _) => HelloKeepsComplete(s, step);
    case Leave(c) => LeaveKeepsComplete(s, c);
    case _ => OtherStepsKeepComplete(s, step);
  }

  /** If every connection announces a single DevEUI, every entry points to a connection whose handler is running. */
  lemma {:induction false} RegistryIsSound(steps: seq<Step>)
    requires OneIdentityRun(steps)
    ensures Sound(Run(steps))
  {
    if steps != [] {
      var s, step := Run(steps[..|steps| - 1]), steps[|steps| - 1];
      RegistryIsSound(steps[..|steps| - 1]);
      RunsKeepInvariant(steps[..|steps| - 1]);
      if Enabled(s, step) {
        StepKeepsSound(s, step);
      }
    }
  }

  /** If live connections also announce distinct DevEUIs, the registry holds exactly the live connections that
      announced one. */
  lemma {:induction false} RegistryIsExact(steps: seq<Step>)
    requires OneIdentityRun(steps) && DistinctRun(steps)
    ensures Exact(Run(steps))
  {
    if steps != [] {
      var s, step := Run(steps[..|steps| - 1]), steps[|steps| - 1];
      RegistryIsExact(steps[..|steps| - 1]);
      RunsKeepInvariant(steps[..|steps| - 1]);
      if Enabled(s, step) {
        StepKeepsExact(s, step);
      }
    }
  }

  /** ConnCount is zero once the gateway's Close has returned. */
  lemma NoEntriesAfterClose(steps: seq<Step>)
    requires OneIdentityRun(steps) && Run(steps).closer.Returned?
    ensures Run(steps).byDevEui == map[]
  {
    RegistryIsSound(steps);
    RunsKeepInvariant(steps);
    assert forall e <- Run(steps).byDevEui :: false;
  }

  // Without those hypotheses: which entries go wrong, over every run

  /** `e` is registered to a connection that is no longer served. */
  predicate StaleEntry(s: State, e: string, c: Conn) {
    e in s.byDevEui && s.byDevEui[e] == c && !At(s, c, Serving)
  }

  /** Connection `c` leaves and its deferred unregister does not remove the entry it holds under `e`. */
  predicate LeavesBehind(s: State, step: Step, e: string, c: Conn) {
    && step == Leave(c) && Enabled(s, step)
    && e in s.byDevEui && s.byDevEui[e] == c && (Announced(s, c) != e || e == "")
  }

  /** The step writes or removes the entry of `e`. */
  predicate Touches(s: State, step: Step, e: string) {
    && Enabled(s, step)
    && ((step.Hello? && step.devEui == e) || (step.Leave? && Announced(s, step.c) == e && e != ""))
  }

  function LeavesBehindAt(steps: seq<Step>, e: string, c: Conn): nat -> bool {
    (i: nat) => i < |steps| && LeavesBehind(Run(steps[..i]), steps[i], e, c)
  }

  function TouchesAt(steps: seq<Step>, e: string): nat -> bool {
    (i: nat) => i < |steps| && Touches(Run(steps[..i]), steps[i], e)
  }

  /** Some step left the entry behind, and nothing has touched it since. */
  ghost predicate LeftBehind(steps: seq<Step>, e: string, c: Conn) {
    Since(|steps|, LeavesBehindAt(steps, e, c), TouchesAt(steps, e))
  }

  lemma LeftBehindStep(most: seq<Step>, step: Step, e: string, c: Conn)
    ensures LeftBehind(most + [step], e, c) <==>
      LeavesBehind(Run(most), step, e, c) || (LeftBehind(most, e, c) && !Touches(Run(most), step, e))
  {
    var steps, n := most + [step], |most|;
    SinceStep(n, LeavesBehindAt(steps, e, c), TouchesAt(steps, e));
    assert forall i: nat :: i <= n ==> steps[..i] == most[..i];
    assert most[..n] == most;
    SinceSame(n, LeavesBehindAt(steps, e, c), TouchesAt(steps, e), LeavesBehindAt(most, e, c), TouchesAt(most, e));
  }

  /** Entries of connections that are served or have been. */
  ghost predicate Known(s: State) {
    && (forall e <- s.byDevEui :: s.byDevEui[e] in s.accepted && s.byDevEui[e] !in InHand(s))
    && (forall c <- s.announced :: c in s.accepted && c !in InHand(s))
  }

  lemma AcceptKeepsStale(s: State, step: Step, e: string, c: Conn)
    requires Accounted(s) && Known(s) && Enabled(s, step) && AcceptStep(step)
    ensures Known(Next(s, step)) && (StaleEntry(Next(s, step), e, c) <==> StaleEntry(s, e, c))
  {
  }

  lemma HandlerKeepsStale(s: State, step: Step, e: string, c: Conn)
    requires Accounted(s) && Known(s) && Enabled(s, step) && (step.Drop? || step.Shutdown? || step.Finish?)
    ensures Known(Next(s, step)) && (StaleEntry(Next(s, step), e, c) <==> StaleEntry(s, e, c))
  {
  }

  lemma HelloStale(s: State, step: Step, e: string, c: Conn)
    requires Accounted(s) && Known(s) && Enabled(s, step) && step.Hello?
    ensures Known(Next(s, step)) && (StaleEntry(Next(s, step), e, c) <==> StaleEntry(s, e, c) && !Touches(s, step, e))
  {
  }

  lemma LeaveStale(s: State, step: Step, e: string, c: Conn)
    requires Accounted(s) && Known(s) && Enabled(s, step) && step.Leave?
    ensures Known(Next(s, step))
    ensures StaleEntry(Next(s, step), e, c) <==>
      LeavesBehind(s, step, e, c) || (StaleEntry(s, e, c) && !Touches(s, step, e))
  {
  }

  lemma StepStale(s: State, step: Step, e: string, c: Conn)
    requires Accounted(s) && Known(s) && Enabled(s, step)
    ensures Known(Next(s, step))
    ensures StaleEntry(Next(s, step), e, c) <==>
      LeavesBehind(s, step, e, c) || (StaleEntry(s, e, c) && !Touches(s, step, e))
  {
    if AcceptStep(step) {
      AcceptKeepsStale(s, step, e, c);
    } else if step.Hello? {
      HelloStale(s, step, e, c);
    } else if step.Leave? {
      LeaveStale(s, step, e, c);
    } else if HandlerStep(step) {
      HandlerKeepsStale(s, step, e, c);
    }
  }

  lemma {:induction false} EntriesAreKnown(steps: seq<Step>)
    ensures Known(Run(steps))
  {
    if steps != [] {
      var s, step := Run(steps[..|steps| - 1]), steps[|steps| - 1];
      EntriesAreKnown(steps[..|steps| - 1]);
      RunsKeepInvariant(steps[..|steps| - 1]);
      if Enabled(s, step) {
        StepStale(s, step, "", 0);
      }
    }
  }

  /** Over every run, an entry belongs to a connection no longer served exactly when that connection left while
      holding it under a DevEUI other than the one it had announced last, or under the empty one, and nothing has
      written or removed the entry since. */
  lemma {:induction false} StaleIffLeftBehind(steps: seq<Step>, e: string, c: Conn)
    ensures StaleEntry(Run(steps), e, c) <==> LeftBehind(steps, e, c)
  {
    if steps != [] {
      var most := steps[..|steps| - 1];
      StaleIffLeftBehind(most, e, c);
      assert steps == most + [steps[|steps| - 1]];
      LeftBehindStep(most, steps[|steps| - 1], e, c);
      RunsKeepInvariant(most);
      EntriesAreKnown(most);
      if Enabled(Run(most), steps[|steps| - 1]) {
        StepStale(Run(most), steps[|steps| - 1], e, c);
      }
    }
  }

  predicate Registered(s: State, c: Conn) {
    Announced(s, c) in s.byDevEui && s.byDevEui[Announced(s, c)] == c
  }

  /** A served connection has announced itself, but no downlink for it finds it. */
  predicate Missing(s: State, c: Conn) {
    At(s, c, Serving) && c in s.announced && !Registered(s, c)
  }

  /** Another connection overwrites, or removes on leaving, the entry of `c`. */
  predicate Evicts(s: State, step: Step, c: Conn) {
    && At(s, c, Serving) && c in s.announced && Registered(s, c)
    && Touches(s, step, Announced(s, c)) && step.c != c
  }

  /** The connection announces itself anew, or leaves. */
  predicate Renews(s: State, step: Step, c: Conn) {
    Enabled(s, step) && (step.Hello? || step.Leave?) && step.c == c
  }

  function EvictsAt(steps: seq<Step>, c: Conn): nat -> bool {
    (i: nat) => i < |steps| && Evicts(Run(steps[..i]), steps[i], c)
  }

  function RenewsAt(steps: seq<Step>, c: Conn): nat -> bool {
    (i: nat) => i < |steps| && Renews(Run(steps[..i]), steps[i], c)
  }

  /** Some step evicted the connection, and it has neither announced itself nor left since. */
  ghost predicate Evicted(steps: seq<Step>, c: Conn) {
    Since(|steps|, EvictsAt(steps, c), RenewsAt(steps, c))
  }

  lemma EvictedStep(most: seq<Step>, step: Step, c: Conn)
    ensures Evicted(most + [step], c) <==>
      Evicts(Run(most), step, c) || (Evicted(most, c) && !Renews(Run(most), step, c))
  {
    var steps, n := most + [step], |most|;
    SinceStep(n, EvictsAt(steps, c), RenewsAt(steps, c));
    assert forall i: nat :: i <= n ==> steps[..i] == most[..i];
    assert most[..n] == most;
    SinceSame(n, EvictsAt(steps, c), RenewsAt(steps, c), EvictsAt(most, c), RenewsAt(most, c));
  }

  lemma AcceptKeepsMissing(s: State, step: Step, c: Conn)
    requires Accounted(s) && Known(s) && Enabled(s, step) && AcceptStep(step)
    ensures Missing(Next(s, step), c) <==> Missing(s, c)
  {
  }

  lemma HandlerKeepsMissing(s: State, step: Step, c: Conn)
    requires Accounted(s) && Known(s) && Enabled(s, step) && !AcceptStep(step)
    ensures Missing(Next(s, step), c) <==> Evicts(s, step, c) || (Missing(s, c) && !Renews(s, step, c))
  {
  }

  lemma StepMissing(s: State, step: Step, c: Conn)
    requires Accounted(s) && Known(s)
    ensures var s' := if Enabled(s, step) then Next(s, step) else s;
      Missing(s', c) <==> Evicts(s, step, c) || (Missing(s, c) && !Renews(s, step, c))
  {
    if Enabled(s, step) {
      if AcceptStep(step) {
        AcceptKeepsMissing(s, step, c);
      } else {
        HandlerKeepsMissing(s, step, c);
      }
    }
  }

  /** Over every run, a served connection that has announced itself is missing from the registry exactly when
      another one overwrote its entry, by announcing the same DevEUI, or removed it, by leaving after having announced
      it last; and it has not announced itself again. */
  lemma {:induction false} MissingIffEvicted(steps: seq<Step>, c: Conn)
    ensures Missing(Run(steps), c) <==> Evicted(steps, c)
  {
    if steps != [] {
      var most, step := steps[..|steps| - 1], steps[|steps| - 1];
      MissingIffEvicted(most, c);
      assert steps == most + [step];
      EvictedStep(most, step, c);
      RunsKeepInvariant(most);
      EntriesAreKnown(most);
      StepMissing(Run(most), step, c);
    }
  }

  // Both happen

  lemma RunAppend(steps: seq<Step>, step: Step)
    requires Enabled(Run(steps), step)
    ensures Run(steps + [step]) == Next(Run(steps), step)
  {
    assert (steps + [step])[..|steps|] == steps;
  }

  /** A run that accepts one more connection and starts its handler. */
  lemma Admitted(steps: seq<Step>, c: Conn) returns (longer: seq<Step>)
    requires var s := Run(steps); s.accept.Listening? && s.listening && !s.closed && c !in s.accepted
    ensures var s, t := Run(steps), Run(longer);
      && At(t, c, Serving) && t.accept.Listening? && t.listening && !t.closed && t.accepted == s.accepted + {c}
      && t.handlers == s.handlers[c := Serving] && t.announced == s.announced && t.byDevEui == s.byDevEui
  {
    RunAppend(steps, AcceptConn(c));
    var one := steps + [AcceptConn(c)];
    RunAppend(one, Admit);
    var two := one + [Admit];
    RunAppend(two, Spawn);
    longer := two + [Spawn];
  }

  lemma Greets(steps: seq<Step>, c: Conn, e: string)
    requires At(Run(steps), c, Serving)
    ensures var s, t := Run(steps), Run(steps + [Hello(c, e)]);
      t == s.(announced := s.announced[c := e], byDevEui := s.byDevEui[e := c])
  {
    RunAppend(steps, Hello(c, e));
  }

  /** One connection announces two DevEUIs and leaves: an entry stays behind, for a connection nobody serves. */
  lemma StaleEntryHappens() returns (steps: seq<Step>)
    ensures StaleEntry(Run(steps), "a", 0)
  {
    var up := Admitted([], 0);
    Greets(up, 0, "a");
    Greets(up + [Hello(0, "a")], 0, "b");
    var named := up + [Hello(0, "a")] + [Hello(0, "b")];
    assert "a" != "b";
    RunAppend(named, Leave(0));
    steps := named + [Leave(0)];
  }

  /** Two connections announce one DevEUI: the second displaces the first, and when the first leaves nobody is
      registered. */
  lemma MissingHappens() returns (steps: seq<Step>)
    ensures Missing(Run(steps), 0) && !Missing(Run(steps), 1)
    ensures Missing(Run(steps + [Leave(0)]), 1) && "a" !in Run(steps + [Leave(0)]).byDevEui
  {
    var one := Admitted([], 0);
    var two := Admitted(one, 1);
    Greets(two, 0, "a");
    Greets(two + [Hello(0, "a")], 1, "a");
    steps := two + [Hello(0, "a")] + [Hello(1, "a")];
    RunAppend(steps, Leave(0));
  }
}
