/** internal/sim/orchestrator.go: JoinAll, one goroutine per enabled tag, counted under a mutex and awaited
    through a WaitGroup. */
module JoinAll {
  import opened Queues

  /** A call of Start and its bookkeeping: `Tallied` has added itself to one of the two totals, `Finished` has
      also left the WaitGroup. */
  datatype Pc = Starting | Ended(ok: bool) | Tallied(ok: bool) | Finished(ok: bool)

  /** A goroutine, for the tag at position `tag` of the listing. */
  datatype Job = Job(tag: nat, pc: Pc)

  /** `Listing` has not listed the tags yet; `Refused` has returned because that failed. */
  datatype Phase = Listing | Launching | Returned | Refused

  datatype State = State(phase: Phase, next: nat, wg: int, jobs: seq<Job>, started: nat, errs: nat)

  const INITIAL := State(Listing, 0, 0, [], 0, 0)

  datatype Step =
    | List(ok: bool) | Launch | WaitReturns
    | StartReturns(i: nat, ok: bool) | Tally(i: nat) | Finish(i: nat)

  /** `enabled` is the Enabled column of the listed tags, in order. */
  predicate Enabled(enabled: seq<bool>, s: State, step: Step) {
    match step
    case List(_) => s.phase.Listing?
    case Launch => s.phase.Launching? && s.next < |enabled|
    case StartReturns(i, _) => i < |s.jobs| && s.jobs[i].pc.Starting?
    case Tally(i) => i < |s.jobs| && s.jobs[i].pc.Ended?
    case Finish(i) => i < |s.jobs| && s.jobs[i].pc.Tallied?
    case WaitReturns => s.phase.Launching? && s.next == |enabled| && s.wg == 0
  }

  function Goto(s: State, i: nat, pc: Pc): State
    requires i < |s.jobs|
  {
    s.(jobs := s.jobs[i := s.jobs[i].(pc := pc)])
  }

  function Next(enabled: seq<bool>, s: State, step: Step): State
    requires Enabled(enabled, s, step)
  {
    match step
    case List(ok) => if ok then s.(phase := Launching) else s.(phase := Refused, errs := 1)
    case Launch =>
      if enabled[s.next] then s.(next := s.next + 1, wg := s.wg + 1, jobs := s.jobs + [Job(s.next, Starting)])
      else s.(next := s.next + 1)
    case StartReturns(i, ok) => Goto(s, i, Ended(ok))
    case Tally(i) =>
      var ok := s.jobs[i].pc.ok;
      Goto(s, i, Tallied(ok)).(started := s.started + (if ok then 1 else 0), errs := s.errs + (if ok then 0 else 1))
    case Finish(i) => Goto(s, i, Finished(s.jobs[i].pc.ok)).(wg := s.wg - 1)
    case WaitReturns => s.(phase := Phase.Returned)
  }

  /** The states of a run; a step that is not enabled is skipped. */
  function Run(enabled: seq<bool>, steps: seq<Step>): State {
    if steps == [] then INITIAL
    else
      var s := Run(enabled, steps[..|steps| - 1]);
      if Enabled(enabled, s, steps[|steps| - 1]) then Next(enabled, s, steps[|steps| - 1]) else s
  }

  predicate Unfinished(j: Job) {
    !j.pc.Finished?
  }

  predicate Succeeded(j: Job) {
    (j.pc.Tallied? || j.pc.Finished?) && j.pc.ok
  }

  predicate FinishedWell(j: Job) {
    j.pc == Finished(true)
  }

  predicate Failed(j: Job) {
    (j.pc.Tallied? || j.pc.Finished?) && !j.pc.ok
  }

  /** The positions below `n` of the enabled tags. */
  function EnabledTags(enabled: seq<bool>, n: nat): seq<nat>
    requires n <= |enabled|
  {
    if n == 0 then [] else EnabledTags(enabled, n - 1) + if enabled[n - 1] then [n - 1] else []
  }

  ghost predicate Invariant(enabled: seq<bool>, s: State) {
    && s.next <= |enabled|
    && |s.jobs| == |EnabledTags(enabled, s.next)|
    && (forall i :: 0 <= i < |s.jobs| ==> s.jobs[i].tag == EnabledTags(enabled, s.next)[i])
    && s.wg == Count(s.jobs, Unfinished)
    && s.started == Count(s.jobs, Succeeded)
    && s.errs == Count(s.jobs, Failed) + (if s.phase.Refused? then 1 else 0)
    && (s.phase.Returned? ==> s.next == |enabled| && s.wg == 0)
    && (s.phase.Listing? || s.phase.Refused? ==> s.jobs == [])
  }

  lemma StepKeeps(enabled: seq<bool>, s: State, step: Step)
    requires Invariant(enabled, s) && Enabled(enabled, s, step)
    ensures Invariant(enabled, Next(enabled, s, step))
  {
    match step
    case WaitReturns =>
    case List(_) =>
    case Launch =>
      CountAppend(s.jobs, Job(s.next, Starting), Unfinished);
      CountAppend(s.jobs, Job(s.next, Starting), Succeeded);
      CountAppend(s.jobs, Job(s.next, Starting), Failed);
    case _ =>
      var j := Next(enabled, s, step).jobs[step.i];
      CountZero(s.jobs, Unfinished);
      CountUpdate(s.jobs, step.i, j, Unfinished);
      CountUpdate(s.jobs, step.i, j, Succeeded);
      CountUpdate(s.jobs, step.i, j, Failed);
  }

  lemma {:induction false} RunsKeepInvariant(enabled: seq<bool>, steps: seq<Step>)
    ensures Invariant(enabled, Run(enabled, steps))
  {
    if steps != [] {
      var s, step := Run(enabled, steps[..|steps| - 1]), steps[|steps| - 1];
      RunsKeepInvariant(enabled, steps[..|steps| - 1]);
      if Enabled(enabled, s, step) {
        StepKeeps(enabled, s, step);
      }
    }
  }

  /** When the tags cannot be listed JoinAll returns (0, 1) and starts nothing. */
  lemma FailedListing(enabled: seq<bool>, steps: seq<Step>)
    requires Run(enabled, steps).phase.Refused?
    ensures var s := Run(enabled, steps); s.started == 0 && s.errs == 1 && s.jobs == []
  {
    RunsKeepInvariant(enabled, steps);
  }

  /** Under every interleaving, when JoinAll returns otherwise, one Start was made for each enabled tag and for no
      other, all have finished, `started` counts exactly those that succeeded, and the two totals add up to the number
      of enabled tags. */
  lemma TotalsAddUp(enabled: seq<bool>, steps: seq<Step>)
    requires Run(enabled, steps).phase.Returned?
    ensures var s, tags := Run(enabled, steps), EnabledTags(enabled, |enabled|);
      && |s.jobs| == |tags| && (forall i :: 0 <= i < |tags| ==> s.jobs[i].tag == tags[i] && s.jobs[i].pc.Finished?)
      && s.started == Count(s.jobs, FinishedWell)
      && s.started + s.errs == |tags|
  {
    RunsKeepInvariant(enabled, steps);
    var s := Run(enabled, steps);
    CountZero(s.jobs, Unfinished);
    assert forall i :: 0 <= i < |s.jobs| ==> s.jobs[i] in s.jobs;
    CountEither(s.jobs, Succeeded, Failed);
    CountAtMost(s.jobs, Succeeded, FinishedWell);
    CountAtMost(s.jobs, FinishedWell, Succeeded);
  }

  /** Nothing is counted after the return. */
  lemma {:induction false} NothingAfterReturn(enabled: seq<bool>, steps: seq<Step>, more: seq<Step>)
    requires Run(enabled, steps).phase.Returned? || Run(enabled, steps).phase.Refused?
    ensures Run(enabled, steps + more) == Run(enabled, steps)
  {
    if more == [] {
      assert steps + more == steps;
    } else {
      assert (steps + more)[..|steps + more| - 1] == steps + more[..|more| - 1];
      NothingAfterReturn(enabled, steps, more[..|more| - 1]);
      if Run(enabled, steps).phase.Returned? {
        TotalsAddUp(enabled, steps);
      }
      RunsKeepInvariant(enabled, steps);
    }
  }
}
