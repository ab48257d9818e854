/** internal/sim/orchestrator.go: who owns the connections that Start dials, when Start, Stop and StopAll run
    concurrently. */
module Orchestrator {
  type TagId = int

  /** Connections are numbered in the order they are dialled. */
  type Conn = nat

  /** Where a call of Start stands: past its check, past loading the tag, past dialling, past hello, in Join,
      about to insert. */
  datatype Pc = Checked | Loaded | Dialled(conn: Conn) | Greeted(conn: Conn) | Joining(conn: Conn) | Ready(conn: Conn)

  datatype Call = Call(tag: TagId, pc: Pc)

  /** `closing` holds the connections that Stop and StopAll have taken out of `running` and are about to close. */
  datatype State = State(
    running: map<TagId, Conn>, calls: map<nat, Call>, dialled: nat, closing: set<Conn>, closed: set<Conn>)

  const INITIAL := State(map[], map[], 0, {}, {})

  /** `ok` is false when the operation the step stands for fails. */
  datatype Step =
    | Begin(id: nat, tag: TagId)
    | Load(id: nat, ok: bool)
    | Dial(id: nat, ok: bool)
    | Hello(id: nat, ok: bool)
    | ReadSession(id: nat, ok: bool, joined: bool)
    | Join(id: nat, ok: bool)
    | Insert(id: nat)
    | Stop(tag: TagId)
    | StopAll
    | CloseStopped(c: Conn)

  predicate Enabled(s: State, step: Step) {
    match step
    case Begin(id, _) => id !in s.calls
    case Load(id, _) => id in s.calls && s.calls[id].pc.Checked?
    case Dial(id, _) => id in s.calls && s.calls[id].pc.Loaded?
    case Hello(id, _) => id in s.calls && s.calls[id].pc.Dialled?
    case ReadSession(id, _, _) => id in s.calls && s.calls[id].pc.Greeted?
    case Join(id, _) => id in s.calls && s.calls[id].pc.Joining?
    case Insert(id) => id in s.calls && s.calls[id].pc.Ready?
    case CloseStopped(c) => c in s.closing
    case _ => true
  }

  function Goto(s: State, id: nat, pc: Pc): State
    requires id in s.calls
  {
    s.(calls := s.calls[id := s.calls[id].(pc := pc)])
  }

  /** The call returns an error after closing what it dialled. */
  function Abort(s: State, id: nat): State
    requires id in s.calls && !s.calls[id].pc.Checked? && !s.calls[id].pc.Loaded?
  {
    s.(calls := s.calls - {id}, closed := s.closed + {s.calls[id].pc.conn})
  }

  function Next(s: State, step: Step): State
    requires Enabled(s, step)
  {
    match step
    case Begin(id, tag) => if tag in s.running then s else s.(calls := s.calls[id := Call(tag, Checked)])
    case Load(id, ok) => if ok then Goto(s, id, Loaded) else s.(calls := s.calls - {id})
    case Dial(id, ok) =>
      if ok then Goto(s, id, Dialled(s.dialled)).(dialled := s.dialled + 1) else s.(calls := s.calls - {id})
    case Hello(id, ok) => if ok then Goto(s, id, Greeted(s.calls[id].pc.conn)) else Abort(s, id)
    case ReadSession(id, ok, joined) =>
      var c := s.calls[id].pc.conn;
      if !ok then Abort(s, id) else Goto(s, id, if joined then Ready(c) else Joining(c))
    case Join(id, ok) => if ok then Goto(s, id, Ready(s.calls[id].pc.conn)) else Abort(s, id)
    case Insert(id) => s.(running := s.running[s.calls[id].tag := s.calls[id].pc.conn], calls := s.calls - {id})
    case Stop(tag) =>
      if tag in s.running then s.(running := s.running - {tag}, closing := s.closing + {s.running[tag]}) else s
    case StopAll => s.(running := map[], closing := s.closing + set tag | tag in s.running :: s.running[tag])
    case CloseStopped(c) => s.(closing := s.closing - {c}, closed := s.closed + {c})
  }

  /** The states of a run; a step that is not enabled is skipped. */
  function Run(steps: seq<Step>): State {
    if steps == [] then INITIAL
    else
      var s := Run(steps[..|steps| - 1]);
      if Enabled(s, steps[|steps| - 1]) then Next(s, steps[|steps| - 1]) else s
  }

  // Ownership

  predicate Holds(s: State, id: nat, c: Conn) {
    id in s.calls && !s.calls[id].pc.Checked? && !s.calls[id].pc.Loaded? && s.calls[id].pc.conn == c
  }

  predicate Runs(s: State, tag: TagId, c: Conn) {
    tag in s.running && s.running[tag] == c
  }

  ghost predicate Held(s: State, c: Conn) {
    (exists id: nat :: Holds(s, id, c)) || (exists tag: TagId :: Runs(s, tag, c)) || c in s.closing
  }

  /** No connection is in two hands, and one that is closed is in none. */
  ghost predicate OneOwner(s: State) {
    && (forall c <- s.closing :: c < s.dialled && c !in s.closed)
    && (forall c <- s.closed :: c < s.dialled)
    && (forall tag: TagId, c: Conn :: Runs(s, tag, c) ==> c < s.dialled && c !in s.closed && c !in s.closing)
    && (forall id: nat, c: Conn :: Holds(s, id, c) ==> c < s.dialled && c !in s.closed && c !in s.closing)
    && (forall tag: TagId, other: TagId, c: Conn :: Runs(s, tag, c) && Runs(s, other, c) ==> tag == other)
    && (forall id: nat, other: nat, c: Conn :: Holds(s, id, c) && Holds(s, other, c) ==> id == other)
    && (forall id: nat, tag: TagId, c: Conn :: Holds(s, id, c) ==> !Runs(s, tag, c))
  }

  /** Open connections nothing refers to any more. */
  ghost predicate Leaked(s: State, c: Conn) {
    c < s.dialled && c !in s.closed && !Held(s, c)
  }

  /** The step inserts a tag that has a running entry for `c`. */
  predicate Overwrites(s: State, step: Step, c: Conn) {
    step.Insert? && Enabled(s, step) && Runs(s, s.calls[step.id].tag, c)
  }

  /** The steps of Start that dial nothing, close nothing and insert nothing. */
  ghost predicate SameHands(s: State, s': State) {
    && (forall id: nat, c: Conn :: Holds(s', id, c) <==> Holds(s, id, c))
    && s'.running == s.running && s'.closing == s.closing && s'.closed == s.closed && s'.dialled == s.dialled
  }

  lemma SameHandsKeep(s: State, s': State, c: Conn)
    requires OneOwner(s) && SameHands(s, s')
    ensures OneOwner(s') && (Leaked(s', c) <==> Leaked(s, c))
  {
    assert forall tag: TagId, d: Conn :: Runs(s', tag, d) <==> Runs(s, tag, d);
  }

  lemma DialKeeps(s: State, id: nat, c: Conn)
    requires OneOwner(s) && Enabled(s, Dial(id, true))
    ensures var s' := Next(s, Dial(id, true)); OneOwner(s') && (Leaked(s', c) <==> Leaked(s, c))
  {
    var s' := Next(s, Dial(id, true));
    assert forall tag: TagId, d: Conn :: Runs(s', tag, d) <==> Runs(s, tag, d);
    assert forall other: nat, d: Conn :: Holds(s', other, d) <==> Holds(s, other, d) || (other == id && d == s.dialled);
    assert Holds(s', id, s.dialled);
  }

  lemma AbortKeeps(s: State, id: nat, c: Conn)
    requires OneOwner(s) && id in s.calls && !s.calls[id].pc.Checked? && !s.calls[id].pc.Loaded?
    ensures OneOwner(Abort(s, id)) && (Leaked(Abort(s, id), c) <==> Leaked(s, c))
  {
    var s' := Abort(s, id);
    assert Holds(s, id, s.calls[id].pc.conn);
    assert forall tag: TagId, d: Conn :: Runs(s', tag, d) <==> Runs(s, tag, d);
    assert forall other: nat, d: Conn :: Holds(s', other, d) <==> Holds(s, other, d) && other != id;
  }

  lemma InsertKeeps(s: State, id: nat, c: Conn)
    requires OneOwner(s) && Enabled(s, Insert(id))
    ensures var s' := Next(s, Insert(id));
      OneOwner(s') && (Leaked(s', c) <==> Leaked(s, c) || Overwrites(s, Insert(id), c))
  {
    var s', tag, conn := Next(s, Insert(id)), s.calls[id].tag, s.calls[id].pc.conn;
    assert Holds(s, id, conn) && Runs(s', tag, conn);
    assert forall t: TagId, d: Conn :: Runs(s', t, d) <==> (Runs(s, t, d) && t != tag) || (t == tag && d == conn);
    assert forall other: nat, d: Conn :: Holds(s', other, d) <==> Holds(s, other, d) && other != id;
  }

  lemma StopKeeps(s: State, tag: TagId, c: Conn)
    requires OneOwner(s)
    ensures var s' := Next(s, Stop(tag)); OneOwner(s') && (Leaked(s', c) <==> Leaked(s, c))
  {
    var s' := Next(s, Stop(tag));
    if tag in s.running {
      assert Runs(s, tag, s.running[tag]);
      assert forall t: TagId, d: Conn :: Runs(s', t, d) <==> Runs(s, t, d) && t != tag;
      assert forall id: nat, d: Conn :: Holds(s', id, d) <==> Holds(s, id, d);
    }
  }

  lemma StopAllKeeps(s: State, c: Conn)
    requires OneOwner(s)
    ensures var s' := Next(s, StopAll); OneOwner(s') && (Leaked(s', c) <==> Leaked(s, c))
  {
    var s' := Next(s, StopAll);
    assert forall t: TagId, d: Conn :: !Runs(s', t, d);
    assert forall id: nat, d: Conn :: Holds(s', id, d) <==> Holds(s, id, d);
    forall d: Conn ensures d in s'.closing <==> d in s.closing || exists t: TagId :: Runs(s, t, d) {
      if d in s'.closing && d !in s.closing {
        var t :| t in s.running && s.running[t] == d;
        assert Runs(s, t, d);
      }
    }
  }

  lemma CloseKeeps(s: State, conn: Conn, c: Conn)
    requires OneOwner(s) && Enabled(s, CloseStopped(conn))
    ensures var s' := Next(s, CloseStopped(conn)); OneOwner(s') && (Leaked(s', c) <==> Leaked(s, c))
  {
    var s' := Next(s, CloseStopped(conn));
    assert forall t: TagId, d: Conn :: Runs(s', t, d) <==> Runs(s, t, d);
    assert forall id: nat, d: Conn :: Holds(s', id, d) <==> Holds(s, id, d);
  }

  lemma StepKeeps(s: State, step: Step, c: Conn)
    requires OneOwner(s) && Enabled(s, step)
    ensures OneOwner(Next(s, step)) && (Leaked(Next(s, step), c) <==> Leaked(s, c) || Overwrites(s, step, c))
  {
    match step
    case Begin(_, _) => SameHandsKeep(s, Next(s, step), c);
    case Load(_, _) => SameHandsKeep(s, Next(s, step), c);
    case Dial(id, ok) =>
      if ok {
        DialKeeps(s, id, c);
      } else {
        SameHandsKeep(s, Next(s, step), c);
      }
    case Hello(id, ok) =>
      if ok {
        SameHandsKeep(s, Next(s, step), c);
      } else {
        AbortKeeps(s, id, c);
      }
    case ReadSession(id, ok, _) =>
      if ok {
        SameHandsKeep(s, Next(s, step), c);
      } else {
        AbortKeeps(s, id, c);
      }
    case Join(id, ok) =>
      if ok {
        SameHandsKeep(s, Next(s, step), c);
      } else {
        AbortKeeps(s, id, c);
      }
    case Insert(id) => InsertKeeps(s, id, c);
    case Stop(tag) => StopKeeps(s, tag, c);
    case StopAll => StopAllKeeps(s, c);
    case CloseStopped(conn) => CloseKeeps(s, conn, c);
  }

  /** Whatever the interleaving, a connection is never in two hands at once, nor closed twice. */
  lemma {:induction false} ConnectionsHaveOneOwner(steps: seq<Step>)
    ensures OneOwner(Run(steps))
  {
    if steps != [] {
      var s, step := Run(steps[..|steps| - 1]), steps[|steps| - 1];
      ConnectionsHaveOneOwner(steps[..|steps| - 1]);
      if Enabled(s, step) {
        StepKeeps(s, step, 0);
      }
    }
  }

  ghost predicate Overwritten(steps: seq<Step>, c: Conn) {
    exists i :: 0 <= i < |steps| && Overwrites(Run(steps[..i]), steps[i], c)
  }

  lemma OverwrittenGrows(steps: seq<Step>, c: Conn)
    requires steps != []
    ensures var n := |steps| - 1;
      Overwritten(steps, c) <==> Overwritten(steps[..n], c) || Overwrites(Run(steps[..n]), steps[n], c)
  {
    var n := |steps| - 1;
    assert forall i :: 0 <= i <= n ==> steps[..n][..i] == steps[..i];
  }

  /** Over every run, a connection is lost, open and out of everyone's hands, exactly when some Start inserted its
      tag over the running entry that held it. No error path of Start, no Stop and no StopAll loses one. */
  lemma {:induction false} LeakedIffOverwritten(steps: seq<Step>, c: Conn)
    ensures Leaked(Run(steps), c) <==> Overwritten(steps, c)
  {
    if steps != [] {
      var s, step := Run(steps[..|steps| - 1]), steps[|steps| - 1];
      LeakedIffOverwritten(steps[..|steps| - 1], c);
      OverwrittenGrows(steps, c);
      ConnectionsHaveOneOwner(steps[..|steps| - 1]);
      if Enabled(s, step) {
        StepKeeps(s, step, c);
      }
    }
  }

  // Without overlapping Starts

  /** A Start begins only while no other Start of its tag is in progress. */
  predicate NoOverlap(s: State, step: Step) {
    step.Begin? ==> forall id <- s.calls :: s.calls[id].tag != step.tag
  }

  predicate NoOverlapRun(steps: seq<Step>) {
    steps == [] || (NoOverlapRun(steps[..|steps| - 1]) && NoOverlap(Run(steps[..|steps| - 1]), steps[|steps| - 1]))
  }

  /** A tag being started has no entry and no second Start. */
  ghost predicate Separate(s: State) {
    && (forall id <- s.calls :: s.calls[id].tag !in s.running)
    && (forall id <- s.calls, other <- s.calls :: s.calls[id].tag == s.calls[other].tag ==> id == other)
  }

  lemma StepKeepsSeparate(s: State, step: Step)
    requires Separate(s) && Enabled(s, step) && NoOverlap(s, step)
    ensures Separate(Next(s, step))
  {
  }

  lemma {:induction false} StartsStaySeparate(steps: seq<Step>)
    requires NoOverlapRun(steps)
    ensures Separate(Run(steps))
  {
    if steps != [] {
      StartsStaySeparate(steps[..|steps| - 1]);
      var s, step := Run(steps[..|steps| - 1]), steps[|steps| - 1];
      if Enabled(s, step) {
        StepKeepsSeparate(s, step);
      }
    }
  }

  lemma {:induction false} NothingOverwritten(steps: seq<Step>, c: Conn)
    requires NoOverlapRun(steps)
    ensures !Overwritten(steps, c)
  {
    if steps != [] {
      NothingOverwritten(steps[..|steps| - 1], c);
      StartsStaySeparate(steps[..|steps| - 1]);
      OverwrittenGrows(steps, c);
    }
  }

  /** Without overlapping Starts of one tag nothing is ever lost; once no Start and no Stop is in progress, every
      connection dialled is either closed or held by exactly one running entry. */
  lemma ConnectionsAreOwned(steps: seq<Step>, c: Conn)
    requires NoOverlapRun(steps) && c < Run(steps).dialled
    ensures var s := Run(steps);
      && (c !in s.closed ==> Held(s, c))
      && (s.calls == map[] && s.closing == {} ==> (c in s.closed <==> !exists tag: TagId :: Runs(s, tag, c)))
      && (forall tag: TagId, other: TagId :: Runs(s, tag, c) && Runs(s, other, c) ==> tag == other)
  {
    LeakedIffOverwritten(steps, c);
    NothingOverwritten(steps, c);
    ConnectionsHaveOneOwner(steps);
  }

  /** Why the hypothesis: of two Starts of one tag that both reach their insert, the first to insert loses its
      connection. */
  lemma OverlappingStartsLeak(steps: seq<Step>, first: nat, second: nat)
    requires first != second && Enabled(Run(steps), Insert(first)) && Enabled(Run(steps), Insert(second))
    requires Run(steps).calls[first].tag == Run(steps).calls[second].tag
    ensures Leaked(Run(steps + [Insert(first), Insert(second)]), Run(steps).calls[first].pc.conn)
  {
    var all, c := steps + [Insert(first), Insert(second)], Run(steps).calls[first].pc.conn;
    assert all[..|steps| + 1][..|steps|] == steps && all[..|steps| + 1][|steps|] == Insert(first);
    assert Runs(Run(all[..|steps| + 1]), Run(steps).calls[second].tag, c);
    assert Overwrites(Run(all[..|steps| + 1]), all[|steps| + 1], c);
    LeakedIffOverwritten(all, c);
  }

  lemma RunAppend(steps: seq<Step>, step: Step)
    ensures Run(steps + [step]) == if Enabled(Run(steps), step) then Next(Run(steps), step) else Run(steps)
  {
    assert (steps + [step])[..|steps|] == steps;
  }

  /** A Start of a tag that is not running, up to its insert. */
  lemma StartUpToInsert(steps: seq<Step>, id: nat, tag: TagId) returns (longer: seq<Step>)
    requires id !in Run(steps).calls && tag !in Run(steps).running
    ensures var s := Run(steps);
      Run(longer) == s.(calls := s.calls[id := Call(tag, Ready(s.dialled))], dialled := s.dialled + 1)
  {
    RunAppend(steps, Begin(id, tag));
    var one := steps + [Begin(id, tag)];
    RunAppend(one, Load(id, true));
    var two := one + [Load(id, true)];
    RunAppend(two, Dial(id, true));
    var three := two + [Dial(id, true)];
    RunAppend(three, Hello(id, true));
    var four := three + [Hello(id, true)];
    RunAppend(four, ReadSession(id, true, true));
    longer := four + [ReadSession(id, true, true)];
    assert Run(longer).calls == Run(steps).calls[id := Call(tag, Ready(Run(steps).dialled))];
  }

  /** Such Starts happen, for every tag: both pass their check before either has inserted, and the connection dialled
      first is lost. */
  lemma OverlapHappens(tag: TagId) returns (steps: seq<Step>)
    ensures Leaked(Run(steps), 0)
  {
    var one := StartUpToInsert([], 0, tag);
    var two := StartUpToInsert(one, 1, tag);
    OverlappingStartsLeak(two, 0, 1);
    steps := two + [Insert(0), Insert(1)];
  }
}
