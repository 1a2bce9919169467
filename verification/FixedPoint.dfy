/**
 The Q15 arithmetic of the cs16 path, bit for bit: int16 samples, taps and phases, products in
 int32, sums in int64, shifts by 15 that round towards minus infinity, and saturation.
 */
module FixedPoint {

  import opened MachineInts

  const INT16_MAX: int := 0x7fff
  const INT16_MIN: int := -0x8000

  /** An I/Q sample, tap or phase in Q15. */
  datatype Iq = Iq(re: int16, im: int16)

  const IQ_ZERO := Iq(0, 0)

  predicate FitsInt32(x: int) {
    -0x8000_0000 <= x < 0x8000_0000
  }

  predicate FitsInt64(x: int) {
    -0x8000_0000_0000_0000 <= x < 0x8000_0000_0000_0000
  }

  /** The result of an int32 operation; C leaves an overflowing one undefined. */
  function Int32(x: int): int
    requires FitsInt32(x)
  {
    x
  }

  /** The result of an int64 operation; C leaves an overflowing one undefined. */
  function Int64(x: int): int
    requires FitsInt64(x)
  {
    x
  }

  /** `x >> 15` on a signed integer. */
  function Shift15(x: int): int {
    x / 0x8000
  }

  /** Passing an int64 to an int32 parameter keeps the low 32 bits. */
  function Narrow32(x: int): int {
    (x + 0x8000_0000) % 0x1_0000_0000 - 0x8000_0000
  }

  function SaturateToInt16(value: int): int16
    requires FitsInt32(value)
  {
    var result := if value > INT16_MAX then INT16_MAX else value;
    (if result < INT16_MIN then INT16_MIN else result) as int16
  }

  /** The nearest int16, for any integer. */
  function Clamp16(x: int): int16 {
    if x > INT16_MAX then INT16_MAX as int16 else if x < INT16_MIN then INT16_MIN as int16 else x as int16
  }

  // ---- What shift, narrowing and saturation mean ----

  /** The shift rounds down. */
  lemma ShiftIsFloor(x: int, n: int)
    ensures n == Shift15(x) <==> 0x8000 * n <= x < 0x8000 * (n + 1)
  {
    assert x == 0x8000 * Shift15(x) + x % 0x8000;
  }

  /** Narrowing yields the one int32 that differs by a multiple of 2^32. */
  lemma NarrowIsCongruent(x: int, n: int)
    ensures n == Narrow32(x) <==> FitsInt32(n) && (n - x) % 0x1_0000_0000 == 0
  {
    assert Narrow32(x) == x + 0x1_0000_0000 * -((x + 0x8000_0000) / 0x1_0000_0000);
  }

  function Distance(x: int, y: int): nat {
    if x < y then y - x else x - y
  }

  predicate NoFarther(x: int, n: int16, m: int16) {
    Distance(x, n as int) <= Distance(x, m as int)
  }

  /** Saturation yields the nearest int16, for every integer. */
  lemma ClampIsNearest(x: int, n: int16)
    ensures n == Clamp16(x) <==> forall m :: NoFarther(x, n, m)
  {
    assert NoFarther(x, n, Clamp16(x)) ==> n == Clamp16(x);
  }

  lemma SaturationIsNearest(value: int, n: int16)
    requires FitsInt32(value)
    ensures n == SaturateToInt16(value) <==> forall m :: NoFarther(value, n, m)
  {
    ClampIsNearest(value, n);
  }

  // ---- Rotation of an accumulator by the phase, and of the phase by its increment ----

  function RotatedRe(a: Iq, p: Iq): int {
    a.re as int * p.re as int - a.im as int * p.im as int
  }

  function RotatedIm(a: Iq, p: Iq): int {
    a.re as int * p.im as int + a.im as int * p.re as int
  }

  function Rotate(a: Iq, p: Iq): Iq {
    Iq(Clamp16(Shift15(RotatedRe(a, p))), Clamp16(Shift15(RotatedIm(a, p))))
  }

  function Norm2(p: Iq): int {
    p.re as int * p.re as int + p.im as int * p.im as int
  }

  /** What every reachable oscillator phase satisfies. */
  predicate PhaseBounded(p: Iq) {
    Norm2(p) <= 2 * INT16_MAX * INT16_MAX
  }

  /** What truncating (cos, sin) * 32767 to integers gives. */
  predicate IncrementBounded(p: Iq) {
    Norm2(p) <= INT16_MAX * INT16_MAX
  }

  lemma SquareMonotone(a: int, b: int)
    requires 0 <= a <= b
    ensures a * a <= b * b
  {
    assert a * a <= a * b <= b * b;
  }

  lemma SquareBound(x: int, k: int)
    requires 0 <= k && x * x <= k * k
    ensures -k <= x <= k
  {
    if x > k {
      SquareMonotone(k + 1, x);
    } else if x < -k {
      SquareMonotone(k + 1, -x);
    }
  }

  lemma SquareOfProduct(a: int, b: int)
    ensures (a * b) * (a * b) == (a * a) * (b * b)
  {
    assert (a * b) * (a * b) == a * (b * (a * b));
    assert b * (a * b) == a * (b * b);
  }

  lemma CrossTerms(a: int, b: int, c: int, d: int)
    requires a * b == c * d
    ensures (a - b) * (a - b) + (c + d) * (c + d) == a * a + b * b + c * c + d * d
  {
    assert (a - b) * (a - b) == a * a - 2 * (a * b) + b * b;
    assert (c + d) * (c + d) == c * c + 2 * (c * d) + d * d;
  }

  /** From the squares of the four products to the product of the sums. */
  lemma SquaresCombine(xx: int, yy: int, uu: int, vv: int, a: int, b: int, c: int, d: int)
    requires a * a == xx * uu && b * b == yy * vv && c * c == xx * vv && d * d == yy * uu && a * b == c * d
    ensures (a - b) * (a - b) + (c + d) * (c + d) == (xx + yy) * (uu + vv)
  {
    CrossTerms(a, b, c, d);
    SumsMultiply(xx, yy, uu, vv);
  }

  lemma NormsMultiply(x: int, y: int, u: int, v: int)
    ensures (x * u - y * v) * (x * u - y * v) + (x * v + y * u) * (x * v + y * u) == (x * x + y * y) * (u * u + v * v)
  {
    SquareOfProduct(x, u);
    SquareOfProduct(x, v);
    SquareOfProduct(y, u);
    SquareOfProduct(y, v);
    CrossProducts(x, y, u, v);
    SquaresCombine(x * x, y * y, u * u, v * v, x * u, y * v, x * v, y * u);
  }

  lemma CrossProducts(x: int, y: int, u: int, v: int)
    ensures (x * u) * (y * v) == (x * v) * (y * u)
  {
    assert (x * u) * (y * v) == x * (u * (y * v)) == x * (v * (y * u));
  }

  /** The squared magnitude of a product is the product of the squared magnitudes. */
  lemma RotationNorm(a: Iq, p: Iq)
    ensures RotatedRe(a, p) * RotatedRe(a, p) + RotatedIm(a, p) * RotatedIm(a, p) == Norm2(a) * Norm2(p)
  {
    NormsMultiply(a.re as int, a.im as int, p.re as int, p.im as int);
  }

  lemma SumsMultiply(a: int, b: int, c: int, d: int)
    ensures (a + b) * (c + d) == a * c + a * d + b * c + b * d
  {
  }

  lemma Int16Square(x: int16)
    ensures 0 <= x as int * x as int <= 0x4000_0000
  {
    var n := x as int;
    if n >= 0 {
      SquareMonotone(n, 0x8000);
    } else {
      SquareMonotone(-n, 0x8000);
      assert (-n) * (-n) == n * n;
    }
  }

  lemma NormProduct(a: int, b: int, m: int, n: int)
    requires 0 <= a <= m && 0 <= b <= n
    ensures a * b <= m * n
  {
    assert a * b <= m * b <= m * n;
  }

  /** Rotating any int16 accumulator by a reachable phase stays inside int32. */
  lemma RotationFits(a: Iq, p: Iq)
    requires PhaseBounded(p)
    ensures FitsInt32(RotatedRe(a, p)) && FitsInt32(RotatedIm(a, p))
  {
    Int16Square(a.re);
    Int16Square(a.im);
    RotationNorm(a, p);
    var re, im := RotatedRe(a, p), RotatedIm(a, p);
    assert Norm2(p) >= 0 by { Int16Square(p.re); Int16Square(p.im); }
    NormProduct(Norm2(a), Norm2(p), 0x8000_0000, 2 * INT16_MAX * INT16_MAX);
    var k := 0x1_0000 * INT16_MAX;
    assert re * re + im * im <= k * k;
    assert re * re >= 0 && im * im >= 0 by { SquareNonNegative(re); SquareNonNegative(im); }
    SquareBound(re, k);
    SquareBound(im, k);
  }

  lemma SquareNonNegative(x: int)
    ensures x * x >= 0
  {
  }

  /** One component of the shifted phase: rounding down adds less than the Q15 scaling took away. */
  lemma FloorComponent(x: int)
    ensures var a := Shift15(x);
            0x7fff * 0x8000 * (a * a) <= x * x + 0x7fff * 0x7fff * 0x7fff
  {
    var a, r := Shift15(x), x % 0x8000;
    assert x == 0x8000 * a + r && 0 <= r <= 0x7fff;
    assert x * x + 0x7fff * (r * r) - 0x7fff * 0x8000 * (a * a) == 0x8000 * ((a + r) * (a + r)) by {
      assert x * x == 0x8000 * 0x8000 * (a * a) + 2 * 0x8000 * (a * r) + r * r;
      assert (a + r) * (a + r) == a * a + 2 * (a * r) + r * r;
    }
    SquareNonNegative(a + r);
    SquareMonotone(r, 0x7fff);
  }

  lemma ClampShrinks(x: int)
    ensures Clamp16(x) as int * Clamp16(x) as int <= x * x
  {
    if x > INT16_MAX {
      SquareMonotone(INT16_MAX, x);
    } else if x < INT16_MIN {
      SquareMonotone(-INT16_MIN, -x);
      assert (-x) * (-x) == x * x;
    }
  }

  /**
   The oscillator never grows: one step keeps re^2 + im^2 <= 2 * 32767^2, although it rounds
   towards minus infinity.
   */
  lemma PhaseStaysBounded(p: Iq, incr: Iq)
    requires PhaseBounded(p) && IncrementBounded(incr)
    ensures PhaseBounded(Rotate(p, incr))
  {
    var x, y := RotatedRe(p, incr), RotatedIm(p, incr);
    var a, b := Shift15(x), Shift15(y);
    RotationNorm(p, incr);
    assert Norm2(p) >= 0 by { Int16Square(p.re); Int16Square(p.im); }
    assert Norm2(incr) >= 0 by { Int16Square(incr.re); Int16Square(incr.im); }
    NormProduct(Norm2(p), Norm2(incr), 2 * INT16_MAX * INT16_MAX, INT16_MAX * INT16_MAX);
    FloorComponent(x);
    FloorComponent(y);
    assert a * a + b * b <= 2 * INT16_MAX * INT16_MAX;
    ClampShrinks(a);
    ClampShrinks(b);
  }

  // ---- The dot product of a window with the taps ----

  /** Real part of the dot product of the first `n` samples with the first `n` taps. */
  function DotRe(w: seq<Iq>, t: seq<Iq>, n: nat): int
    requires n <= |w| && n <= |t|
  {
    if n == 0 then 0 else DotRe(w, t, n - 1) + RotatedRe(w[n - 1], t[n - 1])
  }

  function DotIm(w: seq<Iq>, t: seq<Iq>, n: nat): int
    requires n <= |w| && n <= |t|
  {
    if n == 0 then 0 else DotIm(w, t, n - 1) + RotatedIm(w[n - 1], t[n - 1])
  }

  /** Taps produced from values of magnitude below one never reach -32768. */
  predicate TapBounded(t: Iq) {
    -0x7fff <= t.re as int && -0x7fff <= t.im as int
  }

  predicate TapsBounded(t: seq<Iq>) {
    forall i :: 0 <= i < |t| ==> TapBounded(t[i])
  }

  /** The largest magnitude of a single term: 2 * 32768 * 32767. */
  const TERM_MAX: int := 0x8000_0000 - 0x1_0000

  lemma ProductBound(x: int, y: int)
    requires -0x8000 <= x <= 0x7fff && -0x7fff <= y <= 0x7fff
    ensures -0x8000 * 0x7fff <= x * y <= 0x8000 * 0x7fff
  {
    var p, q := if x < 0 then -x else x, if y < 0 then -y else y;
    NormProduct(p, q, 0x8000, 0x7fff);
    assert x * y == p * q || x * y == -(p * q);
    assert p * q >= 0;
  }

  lemma TermFits(s: Iq, t: Iq)
    requires TapBounded(t)
    ensures -TERM_MAX <= RotatedRe(s, t) <= TERM_MAX
    ensures -TERM_MAX <= RotatedIm(s, t) <= TERM_MAX
  {
    ProductBound(s.re as int, t.re as int);
    ProductBound(s.im as int, t.im as int);
    ProductBound(s.re as int, t.im as int);
    ProductBound(s.im as int, t.re as int);
  }

  lemma {:induction false} DotBound(w: seq<Iq>, t: seq<Iq>, n: nat)
    requires n <= |w| && n <= |t| && TapsBounded(t)
    ensures -(n * TERM_MAX) <= DotRe(w, t, n) <= n * TERM_MAX
    ensures -(n * TERM_MAX) <= DotIm(w, t, n) <= n * TERM_MAX
  {
    if n == 0 {
    } else {
      DotBound(w, t, n - 1);
      TermFits(w[n - 1], t[n - 1]);
    }
  }

  /** The accumulator as the code computes it: shift, narrow to the int32 parameter, saturate. */
  function Accumulate(dot: int): int16 {
    SaturateToInt16(Narrow32(Shift15(dot)))
  }

  /** For values that fit int32 anyway the narrowing is invisible. */
  lemma SmallAccumulate(x: int)
    requires FitsInt32(x)
    ensures Accumulate(x) == Clamp16(Shift15(x))
  {
  }
}
