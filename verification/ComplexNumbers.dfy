/** Exact complex arithmetic, standing for the `float complex` values of the cf32 path. */
module ComplexNumbers {

  datatype Complex = Complex(re: real, im: real)

  const ZERO := Complex(0.0, 0.0)
  const ONE := Complex(1.0, 0.0)

  function Add(a: Complex, b: Complex): Complex {
    Complex(a.re + b.re, a.im + b.im)
  }

  function Mul(a: Complex, b: Complex): Complex {
    Complex(a.re * b.re - a.im * b.im, a.re * b.im + a.im * b.re)
  }

  function Conj(a: Complex): Complex {
    Complex(a.re, -a.im)
  }

  function Scale(r: real, a: Complex): Complex {
    Complex(r * a.re, r * a.im)
  }

  predicate IsUnit(a: Complex) {
    a.re * a.re + a.im * a.im == 1.0
  }

  function Pow(z: Complex, n: nat): Complex {
    if n == 0 then ONE else Mul(Pow(z, n - 1), z)
  }

  lemma MulCommutes(a: Complex, b: Complex)
    ensures Mul(a, b) == Mul(b, a)
  {
  }

  lemma MulOne(a: Complex)
    ensures Mul(a, ONE) == a == Mul(ONE, a)
    ensures Mul(ZERO, a) == ZERO == Mul(a, ZERO)
  {
  }

  lemma MulAssociates(a: Complex, b: Complex, c: Complex)
    ensures Mul(Mul(a, b), c) == Mul(a, Mul(b, c))
  {
    calc {
      Mul(Mul(a, b), c).re;
      (a.re * b.re - a.im * b.im) * c.re - (a.re * b.im + a.im * b.re) * c.im;
      a.re * (b.re * c.re - b.im * c.im) - a.im * (b.re * c.im + b.im * c.re);
      Mul(a, Mul(b, c)).re;
    }
    calc {
      Mul(Mul(a, b), c).im;
      (a.re * b.re - a.im * b.im) * c.im + (a.re * b.im + a.im * b.re) * c.re;
      a.re * (b.re * c.im + b.im * c.re) + a.im * (b.re * c.re - b.im * c.im);
      Mul(a, Mul(b, c)).im;
    }
  }

  lemma MulDistributes(a: Complex, b: Complex, c: Complex)
    ensures Mul(Add(a, b), c) == Add(Mul(a, c), Mul(b, c))
  {
  }

  lemma ScaleMul(r: real, a: Complex, b: Complex)
    ensures Scale(r, Mul(a, b)) == Mul(Scale(r, a), b) == Mul(a, Scale(r, b))
  {
    assert r * (a.re * b.re - a.im * b.im) == r * a.re * b.re - r * a.im * b.im;
    assert r * (a.re * b.im + a.im * b.re) == r * a.re * b.im + r * a.im * b.re;
  }

  lemma UnitTimesConj(z: Complex)
    requires IsUnit(z)
    ensures Mul(z, Conj(z)) == ONE && IsUnit(Conj(z))
  {
  }

  lemma UnitClosed(a: Complex, b: Complex)
    requires IsUnit(a) && IsUnit(b)
    ensures IsUnit(Mul(a, b))
  {
    var m := Mul(a, b);
    calc {
      m.re * m.re + m.im * m.im;
      (a.re * a.re + a.im * a.im) * (b.re * b.re + b.im * b.im);
      1.0;
    }
  }

  lemma {:induction false} UnitPow(z: Complex, n: nat)
    requires IsUnit(z)
    ensures IsUnit(Pow(z, n))
  {
    if n == 0 {
    } else {
      UnitPow(z, n - 1);
      UnitClosed(Pow(z, n - 1), z);
    }
  }

  lemma {:induction false} PowAdd(z: Complex, m: nat, n: nat)
    ensures Pow(z, m + n) == Mul(Pow(z, m), Pow(z, n))
  {
    if n == 0 {
      MulOne(Pow(z, m));
    } else {
      PowAdd(z, m, n - 1);
      MulAssociates(Pow(z, m), Pow(z, n - 1), z);
    }
  }

  /** z^j and z^-n cancel down to z^-(n-j), for a unit z. */
  lemma {:induction false} PowCancels(z: Complex, j: nat, n: nat)
    requires IsUnit(z) && j <= n
    ensures Mul(Pow(z, j), Pow(Conj(z), n)) == Pow(Conj(z), n - j)
  {
    if j == 0 {
      MulOne(Pow(Conj(z), n));
    } else {
      var c := Conj(z);
      calc {
        Mul(Mul(Pow(z, j - 1), z), Mul(Pow(c, n - 1), c));
        { MulCommutes(Pow(c, n - 1), c); MulAssociates(Pow(z, j - 1), z, Mul(c, Pow(c, n - 1))); }
        Mul(Pow(z, j - 1), Mul(z, Mul(c, Pow(c, n - 1))));
        { MulAssociates(z, c, Pow(c, n - 1)); UnitTimesConj(z); MulOne(Pow(c, n - 1)); }
        Mul(Pow(z, j - 1), Pow(c, n - 1));
        { PowCancels(z, j - 1, n - 1); }
        Pow(c, n - j);
      }
    }
  }
}
