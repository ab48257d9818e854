/** internal/sim/orchestrator.go: Burst, which spreads uplinks round-robin over the running tags behind a semaphore. */
module Burst {
  import opened Arithmetic
  import opened Queues
  import opened Wrappers

  type TagId = int

  /** Where the spawning loop stands, with the attempt it is at: before wg.Add, past it, past the semaphore, in
      Wait, returned. */
  datatype Loop = Top(i: nat) | Added(i: nat) | Acquired(i: nat) | Waiting | Returned

  /** Where a goroutine stands: about to send, in Uplink, past it, past releasing the semaphore, past wg.Done. */
  datatype Pc = Spawned | InFlight | Sent | Released | Finished

  datatype Job = Job(tag: TagId, pc: Pc)

  /** `ids` are the tags running when the burst began. */
  datatype Plan = Plan(ids: seq<TagId>, count: int, capacity: nat)
  {
    predicate Valid() {
      |ids| > 0 && forall i, j :: 0 <= i < j < |ids| ==> ids[i] != ids[j]
    }

    function Total(): nat {
      if count > 0 then count else 0
    }
  }

  /** `attempts` is history: the uplinks attempted per tag. */
  datatype State = State(loop: Loop, wg: int, tokens: nat, jobs: seq<Job>, attempts: multiset<TagId>)

  const INITIAL := State(Top(0), 0, 0, [], multiset{})

  datatype Step =
    | Add | Acquire | Spawn | EndLoop
    | Begin(i: nat) | End(i: nat) | Release(i: nat) | Finish(i: nat)
    | WaitReturns

  /** With no tag running there is nothing to do; a non-positive atOnce means one at a time. */
  function Prepare(ids: seq<TagId>, count: int, atOnce: int): Result<Plan> {
    if ids == [] then Err("no running tags") else Ok(Plan(ids, count, if atOnce <= 0 then 1 else atOnce))
  }

  predicate At(s: State, i: nat, pc: Pc) {
    i < |s.jobs| && s.jobs[i].pc == pc
  }

  predicate Enabled(b: Plan, s: State, step: Step) {
    match step
    case Add => s.loop.Top? && s.loop.i < b.count
    case Acquire => s.loop.Added? && s.tokens < b.capacity
    case Spawn => s.loop.Acquired?
    case EndLoop => s.loop.Top? && s.loop.i >= b.count
    case Begin(i) => At(s, i, Spawned)
    case End(i) => At(s, i, InFlight)
    case Release(i) => At(s, i, Sent) && s.tokens > 0
    case Finish(i) => At(s, i, Released)
    case WaitReturns => s.loop.Waiting? && s.wg == 0
  }

  function Goto(s: State, i: nat, pc: Pc): State
    requires i < |s.jobs|
  {
    s.(jobs := s.jobs[i := s.jobs[i].(pc := pc)])
  }

  function Next(b: Plan, s: State, step: Step): State
    requires |b.ids| > 0 && Enabled(b, s, step)
  {
    match step
    case Add => s.(loop := Added(s.loop.i), wg := s.wg + 1)
    case Acquire => s.(loop := Acquired(s.loop.i), tokens := s.tokens + 1)
    case Spawn => s.(loop := Top(s.loop.i + 1), jobs := s.jobs + [Job(b.ids[s.loop.i % |b.ids|], Spawned)])
    case EndLoop => s.(loop := Waiting)
    case Begin(i) => Goto(s, i, InFlight).(attempts := s.attempts + multiset{s.jobs[i].tag})
    case End(i) => Goto(s, i, Sent)
    case Release(i) => Goto(s, i, Released).(tokens := s.tokens - 1)
    case Finish(i) => Goto(s, i, Finished).(wg := s.wg - 1)
    case WaitReturns => s.(loop := Returned)
  }

  /** The states of a run; a step that is not enabled is skipped. */
  function Run(b: Plan, steps: seq<Step>): State
    requires |b.ids| > 0
  {
    if steps == [] then INITIAL
    else
      var s := Run(b, steps[..|steps| - 1]);
      if Enabled(b, s, steps[|steps| - 1]) then Next(b, s, steps[|steps| - 1]) else s
  }

  // The invariant

  predicate Holding(j: Job) {
    j.pc.Spawned? || j.pc.InFlight? || j.pc.Sent?
  }

  predicate Flying(j: Job) {
    j.pc.InFlight?
  }

  predicate Unfinished(j: Job) {
    !j.pc.Finished?
  }

  predicate Begun(j: Job) {
    !j.pc.Spawned?
  }

  function BegunFor(tag: TagId): Job -> bool {
    (j: Job) => j.tag == tag && Begun(j)
  }

  ghost predicate RoundRobin(b: Plan, jobs: seq<Job>)
    requires |b.ids| > 0
  {
    forall i :: 0 <= i < |jobs| ==> jobs[i].tag == b.ids[i % |b.ids|]
  }

  ghost predicate InOrder(b: Plan, s: State)
    requires |b.ids| > 0
  {
    && RoundRobin(b, s.jobs)
    && (match s.loop
        case Top(i) => |s.jobs| == i <= b.Total()
        case Added(i) => |s.jobs| == i < b.Total()
        case Acquired(i) => |s.jobs| == i < b.Total()
        case Waiting => |s.jobs| == b.Total()
        case Returned => |s.jobs| == b.Total() && s.wg == 0)
  }

  ghost predicate Accounted(b: Plan, s: State) {
    && s.wg == Count(s.jobs, Unfinished) + (if s.loop.Added? || s.loop.Acquired? then 1 else 0)
    && s.tokens == Count(s.jobs, Holding) + (if s.loop.Acquired? then 1 else 0) && s.tokens <= b.capacity
    && |s.attempts| == Count(s.jobs, Begun)
  }

  ghost predicate Shared(s: State, tag: TagId) {
    s.attempts[tag] == Count(s.jobs, BegunFor(tag))
  }

  lemma JobKeepsShare(b: Plan, s: State, step: Step, tag: TagId)
    requires |b.ids| > 0 && Shared(s, tag) && Enabled(b, s, step)
    requires step.Begin? || step.End? || step.Release? || step.Finish?
    ensures Shared(Next(b, s, step), tag)
  {
    CountUpdate(s.jobs, step.i, Next(b, s, step).jobs[step.i], BegunFor(tag));
  }

  lemma JobKeepsCounts(b: Plan, s: State, step: Step)
    requires |b.ids| > 0 && InOrder(b, s) && Accounted(b, s) && Enabled(b, s, step)
    requires step.Begin? || step.End? || step.Release? || step.Finish?
    ensures InOrder(b, Next(b, s, step)) && Accounted(b, Next(b, s, step))
  {
    var j := Next(b, s, step).jobs[step.i];
    CountZero(s.jobs, Unfinished);
    CountUpdate(s.jobs, step.i, j, Unfinished);
    CountUpdate(s.jobs, step.i, j, Holding);
    CountUpdate(s.jobs, step.i, j, Begun);
  }

  lemma JobKeeps(b: Plan, s: State, step: Step, tag: TagId)
    requires |b.ids| > 0 && InOrder(b, s) && Accounted(b, s) && Shared(s, tag) && Enabled(b, s, step)
    requires step.Begin? || step.End? || step.Release? || step.Finish?
    ensures var s' := Next(b, s, step); InOrder(b, s') && Accounted(b, s') && Shared(s', tag)
  {
    JobKeepsShare(b, s, step, tag);
    JobKeepsCounts(b, s, step);
  }

  lemma LoopKeeps(b: Plan, s: State, step: Step, tag: TagId)
    requires |b.ids| > 0 && InOrder(b, s) && Accounted(b, s) && Shared(s, tag) && Enabled(b, s, step)
    requires step.Add? || step.Acquire? || step.Spawn? || step.EndLoop? || step.WaitReturns?
    ensures var s' := Next(b, s, step); InOrder(b, s') && Accounted(b, s') && Shared(s', tag)
  {
    if step.Spawn? {
      var j := Job(b.ids[s.loop.i % |b.ids|], Spawned);
      CountAppend(s.jobs, j, Unfinished);
      CountAppend(s.jobs, j, Holding);
      CountAppend(s.jobs, j, Begun);
      CountAppend(s.jobs, j, BegunFor(tag));
    }
  }

  lemma {:induction false} RunsKeepInvariant(b: Plan, steps: seq<Step>, tag: TagId)
    requires |b.ids| > 0
    ensures InOrder(b, Run(b, steps)) && Accounted(b, Run(b, steps)) && Shared(Run(b, steps), tag)
  {
    if steps != [] {
      var s, step := Run(b, steps[..|steps| - 1]), steps[|steps| - 1];
      RunsKeepInvariant(b, steps[..|steps| - 1], tag);
      if Enabled(b, s, step) {
        if step.Begin? || step.End? || step.Release? || step.Finish? {
          JobKeeps(b, s, step, tag);
        } else {
          LoopKeeps(b, s, step, tag);
        }
      }
    }
  }

  /** At most `capacity` uplinks are in flight, in every reachable state. */
  lemma InFlightIsBounded(b: Plan, steps: seq<Step>)
    requires |b.ids| > 0
    ensures Count(Run(b, steps).jobs, Flying) <= b.capacity
  {
    RunsKeepInvariant(b, steps, 0);
    CountAtMost(Run(b, steps).jobs, Flying, Holding);
  }

  /** So a burst never has more in flight than it was asked for at once, and one if that was nothing. */
  lemma AtMostAtOnce(ids: seq<TagId>, count: int, atOnce: int, steps: seq<Step>)
    requires Prepare(ids, count, atOnce).Ok?
    ensures var b := Prepare(ids, count, atOnce).value;
      Count(Run(b, steps).jobs, Flying) <= if atOnce < 1 then 1 else atOnce
  {
    InFlightIsBounded(Prepare(ids, count, atOnce).value, steps);
  }

  // The shares

  lemma NextQuotient(n: int, m: int, q: int, r: int)
    requires m > 0 && q == n / m && r == n % m
    ensures if r == m - 1 then (n + 1) / m == q + 1 && (n + 1) % m == 0 else (n + 1) / m == q && (n + 1) % m == r + 1
  {
    assert n == q * m + r;
    if r == m - 1 {
      assert (q + 1) * m == q * m + m;
      Quotient(n + 1, m, q + 1, 0);
    } else {
      Quotient(n + 1, m, q, r + 1);
    }
  }

  lemma {:induction false} Share(b: Plan, jobs: seq<Job>, k: nat)
    requires b.Valid() && k < |b.ids| && RoundRobin(b, jobs) && forall j <- jobs :: Begun(j)
    ensures Count(jobs, BegunFor(b.ids[k])) == |jobs| / |b.ids| + if k < |jobs| % |b.ids| then 1 else 0
  {
    var n := |jobs|;
    if n > 0 {
      Share(b, jobs[..n - 1], k);
      CountAppend(jobs[..n - 1], jobs[n - 1], BegunFor(b.ids[k]));
      assert jobs == jobs[..n - 1] + [jobs[n - 1]];
      NextQuotient(n - 1, |b.ids|, (n - 1) / |b.ids|, (n - 1) % |b.ids|);
    }
  }

  /** When Burst returns, exactly `count` uplinks have been attempted and have finished, and each tag has been
      asked for its round-robin share: the quotient, and one more for the first `count % n` tags. */
  lemma SharesAreFair(b: Plan, steps: seq<Step>, k: nat)
    requires b.Valid() && k < |b.ids| && Run(b, steps).loop.Returned?
    ensures var s := Run(b, steps);
      && |s.jobs| == |s.attempts| == b.Total() && (forall j <- s.jobs :: j.pc.Finished?)
      && s.attempts[b.ids[k]] == b.Total() / |b.ids| + if k < b.Total() % |b.ids| then 1 else 0
  {
    RunsKeepInvariant(b, steps, b.ids[k]);
    var s := Run(b, steps);
    CountZero(s.jobs, Unfinished);
    var waiting := (j: Job) => !Begun(j);
    CountEither(s.jobs, Begun, waiting);
    CountZero(s.jobs, waiting);
    Share(b, s.jobs, k);
  }

  lemma SomeStep(b: Plan, s: State)
    requires |b.ids| > 0 && b.capacity > 0 && InOrder(b, s) && Accounted(b, s)
    ensures s.loop.Returned? || exists step :: Enabled(b, s, step)
  {
    CountZero(s.jobs, Unfinished);
    CountZero(s.jobs, Holding);
    if i: nat :| i < |s.jobs| && Unfinished(s.jobs[i]) {
      assert s.jobs[i] in s.jobs;
      match s.jobs[i].pc
      case Spawned => assert Enabled(b, s, Begin(i));
      case InFlight => assert Enabled(b, s, End(i));
      case Sent => assert Enabled(b, s, Release(i));
      case Released => assert Enabled(b, s, Step.Finish(i));
    } else {
      match s.loop
      case Top(_) => assert Enabled(b, s, Add) || Enabled(b, s, EndLoop);
      case Added(_) => assert Enabled(b, s, Acquire);
      case Acquired(_) => assert Enabled(b, s, Spawn);
      case Waiting => assert Enabled(b, s, WaitReturns);
      case Returned =>
    }
  }

  /** Burst cannot deadlock, because Prepare never leaves the semaphore without room: until it returns, some step
      is enabled. */
  lemma NeverStuck(ids: seq<TagId>, count: int, atOnce: int, steps: seq<Step>)
    requires Prepare(ids, count, atOnce).Ok?
    ensures var b := Prepare(ids, count, atOnce).value;
      Run(b, steps).loop.Returned? || exists step :: Enabled(b, Run(b, steps), step)
  {
    var b := Prepare(ids, count, atOnce).value;
    RunsKeepInvariant(b, steps, 0);
    SomeStep(b, Run(b, steps));
  }
}
