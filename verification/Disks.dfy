/** Bounds on the distance between complex numbers: sums and products of numbers in disks around zero. */
module Disks {
  import opened ComplexNumbers

  function Sub(a: Complex, b: Complex): Complex {
    Complex(a.re - b.re, a.im - b.im)
  }

  function Size2(a: Complex): real {
    a.re * a.re + a.im * a.im
  }

  /** The magnitude of `a` is at most `r`. */
  predicate Within(a: Complex, r: real) {
    r >= 0.0 && Size2(a) <= r * r
  }

  /** The distance between `a` and `b` is at most `r`. */
  predicate Close(a: Complex, b: Complex, r: real) {
    Within(Sub(a, b), r)
  }

  lemma SquareNonNegative(x: real)
    ensures x * x >= 0.0
  {
  }

  lemma SizeNonNegative(a: Complex)
    ensures Size2(a) >= 0.0
  {
    SquareNonNegative(a.re);
    SquareNonNegative(a.im);
  }

  lemma ProductMonotone(a: real, b: real, c: real, d: real)
    requires 0.0 <= a <= b && 0.0 <= c <= d
    ensures 0.0 <= a * c <= b * d
  {
    assert a * c >= 0.0;
    assert (b - a) * c >= 0.0 && b * (d - c) >= 0.0;
    assert b * d - a * c == (b - a) * c + b * (d - c);
  }

  lemma SquareOfProduct(a: real, b: real)
    ensures (a * b) * (a * b) == (a * a) * (b * b)
  {
    assert (a * b) * (a * b) == a * (b * (a * b));
    assert b * (a * b) == a * (b * b);
  }

  lemma SquareOfSum(a: real, b: real)
    ensures (a + b) * (a + b) == a * a + 2.0 * (a * b) + b * b
  {
  }

  lemma SquareOfDifference(a: real, b: real)
    ensures (a - b) * (a - b) == a * a - 2.0 * (a * b) + b * b
  {
  }

  lemma CrossProducts(x: real, y: real, u: real, v: real)
    ensures (x * u) * (y * v) == (x * v) * (y * u)
  {
    assert (x * u) * (y * v) == x * (u * (y * v));
    assert u * (y * v) == v * (y * u);
    assert x * (v * (y * u)) == (x * v) * (y * u);
  }

  lemma SumsMultiply(a: real, b: real, c: real, d: real)
    ensures (a + b) * (c + d) == a * c + a * d + b * c + b * d
  {
  }

  /** Squared magnitudes multiply. */
  lemma SizeOfProduct(a: Complex, b: Complex)
    ensures Size2(Mul(a, b)) == Size2(a) * Size2(b)
  {
    var x, y, u, v := a.re, a.im, b.re, b.im;
    SquareOfDifference(x * u, y * v);
    SquareOfSum(x * v, y * u);
    CrossProducts(x, y, u, v);
    SquareOfProduct(x, u);
    SquareOfProduct(x, v);
    SquareOfProduct(y, u);
    SquareOfProduct(y, v);
    SumsMultiply(x * x, y * y, u * u, v * v);
  }

  lemma MulWithin(a: Complex, b: Complex, r: real, s: real)
    requires Within(a, r) && Within(b, s)
    ensures Within(Mul(a, b), r * s)
  {
    SizeOfProduct(a, b);
    SizeNonNegative(a);
    SizeNonNegative(b);
    ProductMonotone(Size2(a), r * r, Size2(b), s * s);
    SquareOfProduct(r, s);
  }

  /** The inner product is at most the product of the magnitudes. */
  lemma InnerAtMost(a: Complex, b: Complex, r: real, s: real)
    requires Within(a, r) && Within(b, s)
    ensures a.re * b.re + a.im * b.im <= r * s
  {
    var m := Mul(a, Conj(b));
    assert m.re == a.re * b.re + a.im * b.im;
    SquareOfNegative(b.im);
    MulWithin(a, Conj(b), r, s);
    SquareNonNegative(m.im);
    RootAtMost(m.re, r * s);
  }

  lemma SquareOfNegative(x: real)
    ensures (-x) * (-x) == x * x
  {
  }

  lemma PositiveProduct(x: real, y: real)
    requires x > 0.0 && y > 0.0
    ensures x * y > 0.0
  {
  }

  lemma RootAtMost(x: real, k: real)
    requires 0.0 <= k && x * x <= k * k
    ensures x <= k
  {
    assert (x - k) * (x + k) == x * x - k * k;
    if x > k {
      PositiveProduct(x - k, x + k);
    }
  }

  lemma AddWithin(a: Complex, b: Complex, r: real, s: real)
    requires Within(a, r) && Within(b, s)
    ensures Within(Add(a, b), r + s)
  {
    InnerAtMost(a, b, r, s);
    SquareOfSum(a.re, b.re);
    SquareOfSum(a.im, b.im);
    SquareOfSum(r, s);
  }

  lemma Wider(a: Complex, r: real, s: real)
    requires Within(a, r) && r <= s
    ensures Within(a, s)
  {
    ProductMonotone(r, s, r, s);
  }

  lemma ScaleWithin(k: real, a: Complex, r: real)
    requires Within(a, r) && k >= 0.0
    ensures Within(Scale(k, a), k * r)
  {
    SquareOfProduct(k, a.re);
    SquareOfProduct(k, a.im);
    SquareOfProduct(k, r);
    SizeNonNegative(a);
    SquareNonNegative(k);
    ProductMonotone(k * k, k * k, Size2(a), r * r);
  }

  /** Components of at most `x` in magnitude make a number of magnitude at most 1.5 * x. */
  lemma BoxWithin(a: Complex, x: real)
    requires -x <= a.re <= x && -x <= a.im <= x
    ensures Within(a, 1.5 * x)
  {
    SquareInBox(a.re, x);
    SquareInBox(a.im, x);
    SquareNonNegative(x);
    assert (1.5 * x) * (1.5 * x) == 2.25 * (x * x);
  }

  lemma SquareInBox(a: real, x: real)
    requires -x <= a <= x
    ensures a * a <= x * x
  {
    assert (x - a) * (x + a) >= 0.0;
    assert (x - a) * (x + a) == x * x - a * a;
  }

  /** Two steps one after the other. */
  lemma CloseTwice(a: Complex, b: Complex, c: Complex, r: real, s: real)
    requires Close(a, b, r) && Close(b, c, s)
    ensures Close(a, c, r + s)
  {
    AddWithin(Sub(a, b), Sub(b, c), r, s);
    assert Add(Sub(a, b), Sub(b, c)) == Sub(a, c);
  }

  /** Both factors are off: the first by the distance of the seconds, the second by that of the firsts. */
  lemma ProductsClose(a: Complex, b: Complex, c: Complex, d: Complex, size: real, r: real, s: real)
    requires Within(a, size) && IsUnit(d) && Close(b, d, r) && Close(a, c, s)
    ensures Close(Mul(a, b), Mul(c, d), size * r + s)
  {
    MulWithin(a, Sub(b, d), size, r);
    MulWithin(Sub(a, c), d, s, 1.0);
    AddWithin(Mul(a, Sub(b, d)), Mul(Sub(a, c), d), size * r, s * 1.0);
    DifferenceOfProducts(a, b, c, d);
  }

  lemma DifferenceOfProducts(a: Complex, b: Complex, c: Complex, d: Complex)
    ensures Add(Mul(a, Sub(b, d)), Mul(Sub(a, c), d)) == Sub(Mul(a, b), Mul(c, d))
  {
    MulDifference(a, b, d);
    DifferenceMul(a, c, d);
  }

  lemma TimesDifference(x: real, y: real, z: real)
    ensures x * (y - z) == x * y - x * z
  {
  }

  lemma MulDifference(a: Complex, b: Complex, d: Complex)
    ensures Mul(a, Sub(b, d)) == Sub(Mul(a, b), Mul(a, d))
  {
    TimesDifference(a.re, b.re, d.re);
    TimesDifference(a.im, b.im, d.im);
    TimesDifference(a.re, b.im, d.im);
    TimesDifference(a.im, b.re, d.re);
  }

  lemma DifferenceMul(a: Complex, c: Complex, d: Complex)
    ensures Mul(Sub(a, c), d) == Sub(Mul(a, d), Mul(c, d))
  {
    TimesDifference(d.re, a.re, c.re);
    TimesDifference(d.im, a.im, c.im);
    TimesDifference(d.im, a.re, c.re);
    TimesDifference(d.re, a.im, c.im);
  }
}
