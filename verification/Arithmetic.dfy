/** Facts about integer division and products that the solver needs spelled out. */
module Arithmetic {

  function FloorDiv(n: nat, d: nat): nat
    requires 0 < d
  {
    n / d
  }

  function CeilDiv(n: nat, d: nat): nat
    requires 0 < d
  {
    (n + d - 1) / d
  }

  lemma DivStep(x: int, d: int)
    requires d <= x && 0 < d
    ensures x / d == (x - d) / d + 1
  {
    var q, r := x / d, x % d;
    assert x - d == (q - 1) * d + r;
    DivUnique(x - d, d, q - 1);
  }

  lemma DivUnique(x: int, d: int, q: int)
    requires 0 < d && q * d <= x < (q + 1) * d
    ensures x / d == q
  {
    var p := x / d;
    assert p * d <= x < (p + 1) * d by {
      assert x == p * d + x % d;
      assert (p + 1) * d == p * d + d;
    }
    if p < q {
      MulMonotone(p + 1, q, d);
    } else if q < p {
      MulMonotone(q + 1, p, d);
    }
  }

  lemma MulMonotone(a: int, b: int, d: int)
    requires a <= b && 0 <= d
    ensures a * d <= b * d
  {
    assert (b - a) * d >= 0;
  }

  lemma ModUnique(x: int, d: int, q: int, r: int)
    requires 0 < d && 0 <= r < d && x == q * d + r
    ensures x / d == q && x % d == r
  {
    assert (q + 1) * d == q * d + d;
    DivUnique(x, d, q);
  }

  lemma QuotientAtMost(x: nat, d: nat)
    requires d > 0
    ensures FloorDiv(x, d) <= x
  {
    var q := x / d;
    assert x == q * d + x % d;
    MulMonotone(1, d, q);
  }

  lemma QuotientAtLeast(x: nat, d: nat, q: nat)
    requires d > 0 && q * d <= x
    ensures q <= FloorDiv(x, d)
  {
    var p := x / d;
    assert x == p * d + x % d;
    assert (p + 1) * d == p * d + d;
    if p < q {
      MulMonotone(p + 1, q, d);
    }
  }

  lemma ExactQuotient(x: nat, d: nat)
    requires d > 0 && x % d == 0
    ensures FloorDiv(x, d) * d == x
  {
  }
}
