/** Facts about Euclidean division that the layout proofs use. */
module Arith {

  /** If `a == q * d + r` with `0 <= r < d`, then `q` and `r` are `a`'s quotient and remainder. */
  lemma DivModUnique(a: int, d: int, q: int, r: int)
    requires d > 0 && 0 <= r < d && a == q * d + r
    ensures a / d == q && a % d == r
  {
    var q', r' := a / d, a % d;
    assert (q' - q) * d == r - r';
    MulBounded(q' - q, d);
  }

  /** Counting on by one: the remainder moves to the next column, or wraps
      to 0 and the quotient grows by one. */
  lemma StepDivMod(x: nat, d: nat)
    requires d >= 1
    ensures x % d < d - 1 ==> (x + 1) / d == x / d && (x + 1) % d == x % d + 1
    ensures x % d == d - 1 ==> (x + 1) / d == x / d + 1 && (x + 1) % d == 0
  {
    if x % d < d - 1 {
      DivModUnique(x + 1, d, x / d, x % d + 1);
    } else {
      DivModUnique(x + 1, d, x / d + 1, 0);
    }
  }

  /** A multiple of a positive `d` strictly between `-d` and `d` is zero. */
  lemma MulBounded(x: int, d: int)
    requires d > 0 && -d < x * d < d
    ensures x == 0
  {
  }
}
