/** Division by a variable, which the solver does not do alone. */
module Arithmetic {
  /** By induction, since the product of two variables is hard on the solver. */
  lemma {:induction false} Multiple(d: nat, m: int)
    requires d > 0 && m > 0
    ensures d * m >= m
  {
    if d > 1 {
      Multiple(d - 1, m);
      assert d * m == (d - 1) * m + m;
    }
  }

  lemma Quotient(n: int, m: int, q: int, r: int)
    requires 0 <= r < m && n == q * m + r
    ensures n / m == q && n % m == r
  {
    var d := n / m - q;
    assert d * m == r - n % m;
    if d > 0 {
      Multiple(d, m);
    }
  }
}
