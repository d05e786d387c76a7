/** Multiplication and division facts that the solver does not find by itself. */
module Arithmetic {

  lemma MulMono(i: int, j: int, d: int)
    requires i <= j && d >= 0
    ensures i * d <= j * d
  {
    assert (j - i) * d >= 0;
  }

  /** Quotient and remainder are determined by the division's equation. */
  lemma DivUnique(n: int, d: int, q: int, r: int)
    requires d > 0 && n == q * d + r && 0 <= r < d
    ensures n / d == q && n % d == r
  {
    var k := n / d - q;
    assert n == (n / d) * d + n % d;
    assert k * d == (n / d) * d - q * d;
    SmallMultiple(k, d);
  }

  lemma SmallMultiple(k: int, d: int)
    requires -d < k * d < d
    ensures k == 0
  {
    if k >= 1 { MulMono(1, k, d); }
    if k <= -1 { MulMono(k, -1, d); }
  }
}
