/** "It happened, and has not been undone since", along a run. */
module Traces {
  ghost predicate Since(n: nat, cause: nat -> bool, undo: nat -> bool) {
    exists i: nat :: i < n && cause(i) && forall j: nat :: i < j < n ==> !undo(j)
  }

  lemma SinceStep(n: nat, cause: nat -> bool, undo: nat -> bool)
    ensures Since(n + 1, cause, undo) <==> cause(n) || (Since(n, cause, undo) && !undo(n))
  {
    if cause(n) {
      assert forall j: nat :: n < j < n + 1 ==> !undo(j);
    } else if Since(n, cause, undo) && !undo(n) {
      var i: nat :| i < n && cause(i) && forall j: nat :: i < j < n ==> !undo(j);
      assert forall j: nat :: i < j < n + 1 ==> !undo(j);
    }
  }

  lemma SinceSame(n: nat, cause: nat -> bool, undo: nat -> bool, cause': nat -> bool, undo': nat -> bool)
    requires forall i: nat :: i < n ==> cause(i) == cause'(i) && undo(i) == undo'(i)
    ensures Since(n, cause, undo) <==> Since(n, cause', undo')
  {
  }
}
