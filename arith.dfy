/** Facts about Euclidean division that the solver does not find unaided. */
module Arith {

  lemma MulAtLeast(d: int, b: nat)
    requires d >= 1
    ensures d * b >= b
  {
  }

  /** Quotient and remainder are determined by `x == q * b + r` with `0 <= r < b`. */
  lemma DivModUnique(x: nat, b: nat, q: int, r: int)
    requires b > 0 && 0 <= r < b && x == q * b + r
    ensures x / b == q && x % b == r
  {
    var q', r' := x / b, x % b;
    assert x == q' * b + r';
    assert (q - q') * b == r' - r;
    if q > q' {
      MulAtLeast(q - q', b);
    } else if q' > q {
      MulAtLeast(q' - q, b);
    }
  }
}
