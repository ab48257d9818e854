/** Counting messages in a FIFO queue, and leaving some out. */
module Queues {
  function Count<T>(q: seq<T>, f: T -> bool): nat {
    if q == [] then 0 else (if f(q[0]) then 1 else 0) + Count(q[1..], f)
  }

  lemma {:induction false} CountAppend<T>(q: seq<T>, m: T, f: T -> bool)
    ensures Count(q + [m], f) == Count(q, f) + if f(m) then 1 else 0
  {
    if q == [] {
      assert q + [m] == [m];
      assert [m][1..] == [];
    } else {
      CountAppend(q[1..], m, f);
      assert (q + [m])[1..] == q[1..] + [m];
    }
  }

  lemma {:induction false} CountZero<T>(q: seq<T>, f: T -> bool)
    ensures Count(q, f) == 0 <==> forall m <- q :: !f(m)
  {
    if q != [] {
      CountZero(q[1..], f);
      assert q == [q[0]] + q[1..];
    }
  }

  lemma {:induction false} CountPrefix<T>(q: seq<T>, n: nat, f: T -> bool)
    requires n <= |q|
    ensures Count(q[..n], f) <= Count(q, f)
  {
    if n > 0 {
      CountPrefix(q[1..], n - 1, f);
      assert q[..n][1..] == q[1..][..n - 1];
    }
  }

  lemma {:induction false} CountUpdate<T>(q: seq<T>, i: nat, m: T, f: T -> bool)
    requires i < |q|
    ensures Count(q[i := m], f) == Count(q, f) - (if f(q[i]) then 1 else 0) + if f(m) then 1 else 0
  {
    if i == 0 {
      assert q[i := m][1..] == q[1..];
    } else {
      CountUpdate(q[1..], i - 1, m, f);
      assert q[i := m][1..] == q[1..][i - 1 := m];
    }
  }

  lemma {:induction false} CountAtMost<T>(q: seq<T>, f: T -> bool, g: T -> bool)
    requires forall m <- q :: f(m) ==> g(m)
    ensures Count(q, f) <= Count(q, g)
  {
    if q != [] {
      CountAtMost(q[1..], f, g);
    }
  }

  lemma {:induction false} CountEither<T>(q: seq<T>, f: T -> bool, g: T -> bool)
    requires forall m <- q :: f(m) != g(m)
    ensures Count(q, f) + Count(q, g) == |q|
  {
    if q != [] {
      CountEither(q[1..], f, g);
    }
  }

  /** `a` is `b` with some elements left out. */
  predicate Subsequence<T(==)>(a: seq<T>, b: seq<T>) {
    if a == [] then true
    else if b == [] then false
    else
      || Subsequence(a, b[..|b| - 1])
      || (a[|a| - 1] == b[|b| - 1] && Subsequence(a[..|a| - 1], b[..|b| - 1]))
  }

  lemma SubsequenceGrows<T>(a: seq<T>, b: seq<T>, x: T)
    requires Subsequence(a, b)
    ensures Subsequence(a, b + [x])
    ensures Subsequence(a + [x], b + [x])
  {
    assert (b + [x])[..|b|] == b && (a + [x])[..|a|] == a;
  }

  lemma {:induction false} SubsequenceElements<T>(a: seq<T>, b: seq<T>)
    requires Subsequence(a, b)
    ensures |a| <= |b| && forall x <- a :: x in b
  {
    if a != [] {
      if Subsequence(a, b[..|b| - 1]) {
        SubsequenceElements(a, b[..|b| - 1]);
      } else {
        SubsequenceElements(a[..|a| - 1], b[..|b| - 1]);
        assert a == a[..|a| - 1] + [a[|a| - 1]];
      }
    }
  }

  predicate Increasing(s: seq<nat>) {
    forall i, j :: 0 <= i < j < |s| ==> s[i] < s[j]
  }

  lemma {:induction false} SubsequenceIncreasing(a: seq<nat>, b: seq<nat>)
    requires Subsequence(a, b) && Increasing(b)
    ensures Increasing(a)
  {
    if a != [] {
      if Subsequence(a, b[..|b| - 1]) {
        SubsequenceIncreasing(a, b[..|b| - 1]);
      } else {
        SubsequenceIncreasing(a[..|a| - 1], b[..|b| - 1]);
        SubsequenceElements(a[..|a| - 1], b[..|b| - 1]);
        forall i | 0 <= i < |a| - 1 ensures a[i] < a[|a| - 1] {
          assert a[..|a| - 1][i] in b[..|b| - 1];
        }
      }
    }
  }

  predicate Distinct(s: seq<nat>) {
    forall i, j :: 0 <= i < j < |s| ==> s[i] != s[j]
  }

  lemma {:induction false} SubsequenceDistinct(a: seq<nat>, b: seq<nat>)
    requires Subsequence(a, b) && Distinct(b)
    ensures Distinct(a)
  {
    if a != [] {
      if Subsequence(a, b[..|b| - 1]) {
        SubsequenceDistinct(a, b[..|b| - 1]);
      } else {
        SubsequenceDistinct(a[..|a| - 1], b[..|b| - 1]);
        SubsequenceElements(a[..|a| - 1], b[..|b| - 1]);
        forall i | 0 <= i < |a| - 1 ensures a[i] != a[|a| - 1] {
          assert a[..|a| - 1][i] in b[..|b| - 1];
        }
      }
    }
  }

  /** Some `d` stands before some `e`. */
  predicate Before(s: seq<nat>, d: nat, e: nat) {
    exists i, j :: 0 <= i < j < |s| && s[i] == d && s[j] == e
  }

  lemma BeforeAppend(s: seq<nat>, x: nat, d: nat, e: nat)
    ensures Before(s + [x], d, e) <==> Before(s, d, e) || (e == x && d in s)
  {
    var longer := s + [x];
    if Before(s, d, e) {
      var i, j :| 0 <= i < j < |s| && s[i] == d && s[j] == e;
      assert longer[i] == d && longer[j] == e;
    } else if e == x && d in s {
      var i :| 0 <= i < |s| && s[i] == d;
      assert longer[i] == d && longer[|s|] == e;
    }
  }

  lemma IncreasingBefore(s: seq<nat>)
    ensures Increasing(s) <==> forall d: nat, e: nat :: Before(s, d, e) ==> d < e
  {
    if forall d: nat, e: nat :: Before(s, d, e) ==> d < e {
      forall i, j | 0 <= i < j < |s| ensures s[i] < s[j] {
        assert Before(s, s[i], s[j]);
      }
    }
  }

  /** Leaving elements out keeps the order of the others. */
  lemma {:induction false} SubsequenceBefore(a: seq<nat>, b: seq<nat>, d: nat, e: nat)
    requires Subsequence(a, b) && Distinct(b)
    ensures Before(a, d, e) <==> Before(b, d, e) && d in a && e in a
  {
    if a != [] {
      var b', x := b[..|b| - 1], b[|b| - 1];
      assert b == b' + [x];
      BeforeAppend(b', x, d, e);
      if Subsequence(a, b') {
        SubsequenceBefore(a, b', d, e);
        SubsequenceElements(a, b');
      } else {
        var a' := a[..|a| - 1];
        assert a == a' + [x];
        BeforeAppend(a', x, d, e);
        SubsequenceBefore(a', b', d, e);
        SubsequenceElements(a', b');
      }
    }
  }
}
