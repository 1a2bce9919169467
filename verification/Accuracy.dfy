/**
 How far the fixed-point path is from exact down-conversion: taps and increment are cut off, every
 accumulator, output and phase is rounded down and saturated. All distances are in units of an int16.
 */
module Accuracy {
  import opened Accumulation
  import opened Arithmetic
  import opened ComplexNumbers
  import opened Disks
  import opened DotProducts
  import opened DownConversion
  import opened FixedPoint
  import opened MachineInts
  import opened SampleFormats
  import opened Streaming
  import opened Taps
  import opened XlatingSpec
  import XlatingCs16

  // ---- Rounding and saturation ----

  /** The nearest value in the range of an int16. */
  function Clamp(x: real): real {
    if x > 32767.0 then 32767.0 else if x < -32768.0 then -32768.0 else x
  }

  function ClampBoth(c: Complex): Complex {
    Complex(Clamp(c.re), Clamp(c.im))
  }

  /** An int32 component or two as a complex number. */
  function Exact(re: int, im: int): Complex {
    Complex(re as real, im as real)
  }

  function Over15(c: Complex): Complex {
    Complex(c.re / 32768.0, c.im / 32768.0)
  }

  lemma FloorClose(x: int)
    ensures -1.0 <= Shift15(x) as real - x as real / 32768.0 <= 0.0
  {
    assert x == 0x8000 * Shift15(x) + x % 0x8000;
  }

  lemma ClampOfInt(x: int)
    ensures Clamp16(x) as int as real == Clamp(x as real)
  {
  }

  /** Saturation does not take two values further apart. */
  lemma ClampShrinksDistance(x: real, y: real)
    ensures (Clamp(x) - Clamp(y)) * (Clamp(x) - Clamp(y)) <= (x - y) * (x - y)
  {
    var a, b := Clamp(x) - Clamp(y), x - y;
    if b >= 0.0 {
      assert 0.0 <= a <= b;
      SquareInBox(a, b);
    } else {
      assert b <= a <= 0.0;
      SquareInBox(a, -b);
      SquareOfNegative(b);
    }
  }

  lemma ClampClose(a: Complex, b: Complex, r: real)
    requires Close(a, b, r)
    ensures Close(ClampBoth(a), ClampBoth(b), r)
  {
    ClampShrinksDistance(a.re, b.re);
    ClampShrinksDistance(a.im, b.im);
  }

  /** Rounding down by the shift and saturating both parts. */
  lemma ShiftedClose(re: int, im: int)
    ensures Close(AsComplex(Iq(Clamp16(Shift15(re)), Clamp16(Shift15(im)))), ClampBoth(Over15(Exact(re, im))), 1.5)
  {
    var down := Exact(Shift15(re), Shift15(im));
    FloorClose(re);
    FloorClose(im);
    BoxWithin(Sub(down, Over15(Exact(re, im))), 1.0);
    ClampClose(down, Over15(Exact(re, im)), 1.5);
    ClampOfInt(Shift15(re));
    ClampOfInt(Shift15(im));
  }

  lemma ProductAsReal(x: int, y: int)
    ensures x as real * y as real == (x * y) as real
  {
  }

  lemma RotatedExact(a: Iq, p: Iq)
    ensures Exact(RotatedRe(a, p), RotatedIm(a, p)) == Mul(AsComplex(a), AsComplex(p))
  {
    ProductAsReal(a.re as int, p.re as int);
    ProductAsReal(a.im as int, p.im as int);
    ProductAsReal(a.re as int, p.im as int);
    ProductAsReal(a.im as int, p.re as int);
  }

  lemma OverMul(a: Complex, b: Complex)
    ensures Over15(Mul(a, b)) == Mul(a, Over15(b))
  {
  }

  /** One fixed-point rotation. */
  lemma RotateClose(a: Iq, p: Iq)
    ensures Close(AsComplex(Rotate(a, p)), ClampBoth(Mul(AsComplex(a), Over15(AsComplex(p)))), 1.5)
  {
    ShiftedClose(RotatedRe(a, p), RotatedIm(a, p));
    RotatedExact(a, p);
    OverMul(AsComplex(a), AsComplex(p));
  }

  // ---- The oscillator ----

  /** The distance one step of the oscillator adds: what its increment and its rounding are off. */
  const DRIFT: real := 5.25

  /** How far the increment is from the unit rotation it stands for. */
  const OFF: real := 2.5 / 32768.0

  /** The exact phase after `k` outputs, at the amplitude of the fixed-point one. */
  function ExactPhase(u: Complex, k: nat): Complex {
    Scale(32767.0, Pow(u, k))
  }

  lemma CutOffClose(n: Iq, x: Complex)
    requires CutOff(n.re as int, x.re) && CutOff(n.im as int, x.im)
    ensures Close(AsComplex(n), x, 1.5)
  {
    BoxWithin(Sub(AsComplex(n), x), 1.0);
  }

  /** The increment over 2^15 is within 2.5 / 32768 of the unit rotation. */
  lemma IncrementClose(incr: Iq, u: Complex)
    requires IsUnit(u) && CutOff(incr.re as int, u.re * 32767.0) && CutOff(incr.im as int, u.im * 32767.0)
    ensures Close(Over15(AsComplex(incr)), u, OFF)
  {
    var i, v := AsComplex(incr), Scale(32767.0, u);
    CutOffClose(incr, v);
    UnitShort(u);
    CloseTwice(i, v, Scale(32768.0, u), 1.5, 1.0);
    OverClose(i, u, 2.5);
  }

  /** 32767 and 32768 times a unit are one apart. */
  lemma UnitShort(u: Complex)
    requires IsUnit(u)
    ensures Close(Scale(32767.0, u), Scale(32768.0, u), 1.0)
  {
    var d := Sub(Scale(32767.0, u), Scale(32768.0, u));
    assert d == Complex(-u.re, -u.im);
    SquareOfNegative(u.re);
    SquareOfNegative(u.im);
  }

  lemma OverClose(a: Complex, b: Complex, r: real)
    requires Close(a, Scale(32768.0, b), r)
    ensures Close(Over15(a), b, r / 32768.0)
  {
    ScaleWithin(1.0 / 32768.0, Sub(a, Scale(32768.0, b)), r);
    assert Scale(1.0 / 32768.0, Sub(a, Scale(32768.0, b))) == Sub(Over15(a), b);
  }

  lemma PhaseSize(p: Iq)
    requires PhaseBounded(p)
    ensures Within(AsComplex(p), 1.5 * 32767.0)
  {
    ProductAsReal(p.re as int, p.re as int);
    ProductAsReal(p.im as int, p.im as int);
    assert Size2(AsComplex(p)) == FixedPoint.Norm2(p) as real;
  }

  /** The components of the exact phase fit an int16, so saturation leaves it alone. */
  lemma ExactPhaseFits(u: Complex, k: nat)
    requires IsUnit(u)
    ensures ClampBoth(ExactPhase(u, k)) == ExactPhase(u, k) && IsUnit(Pow(u, k))
  {
    UnitPow(u, k);
    var v := Pow(u, k);
    SquareNonNegativeOf(v);
    UnitInterval(v.re);
    UnitInterval(v.im);
  }

  lemma SquareNonNegativeOf(c: Complex)
    ensures c.re * c.re >= 0.0 && c.im * c.im >= 0.0
  {
  }

  /** A product with the increment, rounded and saturated, instead of the exact rotation by `u`. */
  lemma StepClose(y: Complex, a: Complex, b: Complex, v: Complex, u: Complex, r: real)
    requires Within(a, 1.5 * 32767.0) && IsUnit(u) && Close(b, u, OFF) && Close(a, v, r)
    requires ClampBoth(Mul(v, u)) == Mul(v, u) && Close(y, ClampBoth(Mul(a, b)), 1.5)
    ensures Close(y, Mul(v, u), DRIFT + r)
  {
    hide Within, Close, Mul, IsUnit, ClampBoth;
    var s := 1.5 * 32767.0 * OFF + r;
    assert 1.5 + s <= DRIFT + r;
    ProductsClose(a, b, v, u, 1.5 * 32767.0, OFF, r);
    ClampClose(Mul(a, b), Mul(v, u), s);
    CloseTwice(y, ClampBoth(Mul(a, b)), Mul(v, u), 1.5, s);
    CloserThan(y, Mul(v, u), 1.5 + s, DRIFT + r);
  }

  /** One step of the oscillator, from `r` away from the exact value `v`. */
  lemma OneStep(p: Iq, incr: Iq, u: Complex, v: Complex, r: real)
    requires PhaseBounded(p) && IsUnit(u) && ClampBoth(Mul(v, u)) == Mul(v, u)
    requires CutOff(incr.re as int, u.re * 32767.0) && CutOff(incr.im as int, u.im * 32767.0)
    requires Close(AsComplex(p), v, r)
    ensures Close(AsComplex(Rotate(p, incr)), Mul(v, u), DRIFT + r)
  {
    hide Within, Close, Mul, Rotate, IsUnit, CutOff, PhaseBounded, AsComplex, Over15, ClampBoth;
    PhaseSize(p);
    IncrementClose(incr, u);
    RotateClose(p, incr);
    StepClose(AsComplex(Rotate(p, incr)), AsComplex(p), Over15(AsComplex(incr)), v, u, r);
  }

  lemma CloserThan(a: Complex, b: Complex, r: real, s: real)
    requires Close(a, b, r) && r <= s
    ensures Close(a, b, s)
  {
    Wider(Sub(a, b), r, s);
  }

  lemma DriftStep(p: Iq, incr: Iq, u: Complex, k: nat)
    requires PhaseBounded(p) && IsUnit(u)
    requires CutOff(incr.re as int, u.re * 32767.0) && CutOff(incr.im as int, u.im * 32767.0)
    requires Close(AsComplex(p), ExactPhase(u, k), DRIFT * k as real)
    ensures Close(AsComplex(Rotate(p, incr)), ExactPhase(u, k + 1), DRIFT * (k + 1) as real)
  {
    NextExactPhase(u, k);
    ExactPhaseFits(u, k + 1);
    hide Close, Rotate, IsUnit, CutOff, PhaseBounded, AsComplex, ExactPhase, Mul;
    OneStep(p, incr, u, ExactPhase(u, k), DRIFT * k as real);
    assert DRIFT + DRIFT * k as real == DRIFT * (k + 1) as real;
  }

  lemma NextExactPhase(u: Complex, k: nat)
    ensures Mul(ExactPhase(u, k), u) == ExactPhase(u, k + 1)
  {
    ScaleMul(32767.0, Pow(u, k), u);
  }

  /** The fixed-point oscillator drifts away from the exact one by at most a few units an output. */
  lemma {:induction false} OscillatorDrift(taps: seq<Iq>, decimation: nat, incr: Iq, u: Complex, k: nat)
    requires IncrementBounded(incr) && IsUnit(u)
    requires CutOff(incr.re as int, u.re * 32767.0) && CutOff(incr.im as int, u.im * 32767.0)
    ensures var p := PhaseAt(Cs16Kernel(taps, decimation, incr), Iq(0x7fff, 0), k);
            PhaseBounded(p) && Close(AsComplex(p), ExactPhase(u, k), DRIFT * k as real)
  {
    if k == 0 {
      assert ExactPhase(u, 0) == AsComplex(Iq(0x7fff, 0));
    } else {
      hide Close, Rotate, IsUnit, CutOff, IncrementBounded, PhaseBounded, AsComplex, ExactPhase, AccumulateWindow;
      var p := PhaseAt(Cs16Kernel(taps, decimation, incr), Iq(0x7fff, 0), k - 1);
      OscillatorDrift(taps, decimation, incr, u, k - 1);
      DriftStep(p, incr, u, k - 1);
      PhaseStaysBounded(p, incr);
    }
  }

  // ---- The accumulator ----

  function AsComplexes(s: seq<Iq>): (c: seq<Complex>)
    ensures |c| == |s|
  {
    seq(|s|, i requires 0 <= i < |s| => AsComplex(s[i]))
  }

  lemma OverAdd(a: Complex, b: Complex)
    ensures Over15(Add(a, b)) == Add(Over15(a), Over15(b))
  {
  }

  lemma {:induction false} DotExact(w: seq<Iq>, t: seq<Iq>, n: nat)
    requires n <= |w| && n <= |t|
    ensures Exact(DotRe(w, t, n), DotIm(w, t, n)) == Dot(AsComplexes(w), AsComplexes(t), n)
  {
    if n == 0 {
    } else {
      DotExact(w, t, n - 1);
      RotatedExact(w[n - 1], t[n - 1]);
    }
  }

  /** Shift, narrowing and saturation of the sums, when the narrowing loses nothing. */
  lemma AccumulatorClose(w: seq<Iq>, t: seq<Iq>)
    requires |w| == |t| && AccumulationExact(w, t)
    ensures Close(AsComplex(AccumulateWindow(w, t)), ClampBoth(Over15(Dot(AsComplexes(w), AsComplexes(t), |t|))), 1.5)
  {
    DotExact(w, t, |t|);
    ShiftedClose(DotRe(w, t, |t|), DotIm(w, t, |t|));
  }

  /** How far a quantised tap is from the exact one. */
  const TAP_OFF: real := 1.5 / 32768.0

  lemma TapClose(b: Complex)
    requires -1.0 < b.re < 1.0 && -1.0 < b.im < 1.0
    ensures Close(Over15(AsComplex(QuantizeTap(b))), b, TAP_OFF)
  {
    TapIsCutOff(b);
    hide Close;
    CutOffClose(QuantizeTap(b), Complex(b.re * 32768.0, b.im * 32768.0));
    assert Complex(b.re * 32768.0, b.im * 32768.0) == Scale(32768.0, b);
    OverClose(AsComplex(QuantizeTap(b)), b, 1.5);
  }

  /** The magnitude of any sample is at most this. */
  const SIZE: real := 1.5 * 32768.0

  lemma SampleSize(s: Iq)
    ensures Within(AsComplex(s), SIZE)
  {
    BoxWithin(AsComplex(s), 32768.0);
  }

  lemma ScaledTermClose(x: Complex, q: Complex, b: Complex)
    requires Within(x, SIZE) && Close(Over15(q), b, TAP_OFF)
    ensures Close(Over15(Mul(x, q)), Mul(x, b), 2.25)
  {
    hide Within, Mul, Over15, Sub;
    OverMul(x, q);
    MulDifference(x, Over15(q), b);
    MulWithin(x, Sub(Over15(q), b), SIZE, TAP_OFF);
    assert SIZE * TAP_OFF == 2.25;
  }

  lemma TermClose(s: Iq, b: Complex)
    requires -1.0 < b.re < 1.0 && -1.0 < b.im < 1.0
    ensures Close(Over15(Mul(AsComplex(s), AsComplex(QuantizeTap(b)))), Mul(AsComplex(s), b), 2.25)
  {
    hide Within, Close, Mul, AsComplex, Over15;
    SampleSize(s);
    TapClose(b);
    ScaledTermClose(AsComplex(s), AsComplex(QuantizeTap(b)), b);
  }

  lemma SumsClose(a: Complex, b: Complex, c: Complex, d: Complex, r: real, s: real)
    requires Close(a, b, r) && Close(c, d, s)
    ensures Close(Add(a, c), Add(b, d), r + s)
  {
    AddWithin(Sub(a, b), Sub(c, d), r, s);
    assert Add(Sub(a, b), Sub(c, d)) == Sub(Add(a, c), Add(b, d));
  }

  /** The sum with the quantised taps is within 2.25 a tap of the sum with the exact ones. */
  lemma {:induction false} DotClose(w: seq<Iq>, b: seq<Complex>, n: nat)
    requires InUnitSquare(b) && |w| == |b| && n <= |b|
    ensures Close(Over15(Dot(AsComplexes(w), AsComplexes(QuantizeTaps(b)), n)), Dot(AsComplexes(w), b, n),
                  2.25 * n as real)
  {
    var x, q := AsComplexes(w), AsComplexes(QuantizeTaps(b));
    if n == 0 {
    } else {
      DotClose(w, b, n - 1);
      TermClose(w[n - 1], b[n - 1]);
      var sum, term := Dot(x, q, n - 1), Mul(x[n - 1], q[n - 1]);
      assert q[n - 1] == AsComplex(QuantizeTap(b[n - 1]));
      hide Close, Mul, Over15, AsComplex;
      OverAdd(sum, term);
      SumsClose(Over15(sum), Dot(x, b, n - 1), Over15(term), Mul(x[n - 1], b[n - 1]), 2.25 * (n - 1) as real, 2.25);
      assert 2.25 * (n - 1) as real + 2.25 == 2.25 * n as real;
    }
  }

  // ---- One output ----

  /** The phase over 2^15, against the unit `v` it stands for. */
  lemma PhaseOver(p: Iq, v: Complex, r: real)
    requires IsUnit(v) && Close(AsComplex(p), Scale(32767.0, v), r)
    ensures Close(Over15(AsComplex(p)), v, (r + 1.0) / 32768.0)
  {
    UnitShort(v);
    hide Close, AsComplex, Over15, IsUnit, Scale;
    CloseTwice(AsComplex(p), Scale(32767.0, v), Scale(32768.0, v), r, 1.0);
    OverClose(AsComplex(p), v, r + 1.0);
  }

  lemma ProductOver(a: Complex, b: Complex, c: Complex, v: Complex, r: real, s: real)
    requires Within(a, SIZE) && IsUnit(v) && Close(b, v, r / 32768.0) && Close(a, c, s)
    ensures Close(Mul(a, b), Mul(c, v), 1.5 * r + s)
  {
    hide Within, Close, Mul, IsUnit;
    ProductsClose(a, b, c, v, SIZE, r / 32768.0, s);
    assert SIZE * (r / 32768.0) == 1.5 * r;
  }

  /** An accumulator `a` that stands for `c`, rotated by a phase that stands for `v`. */
  lemma OutputClose(a: Iq, p: Iq, c: Complex, v: Complex, r: real, s: real)
    requires IsUnit(v) && Close(AsComplex(p), Scale(32767.0, v), r) && Close(AsComplex(a), c, s)
    ensures Close(AsComplex(Rotate(a, p)), ClampBoth(Mul(c, v)), 1.5 + (1.5 * (r + 1.0) + s))
  {
    hide Within, Close, Mul, Rotate, IsUnit, AsComplex, Over15, ClampBoth, Scale;
    var b, q := AsComplex(a), Over15(AsComplex(p));
    SampleSize(a);
    PhaseOver(p, v, r);
    ProductOver(b, q, c, v, r + 1.0, s);
    ClampClose(Mul(b, q), Mul(c, v), 1.5 * (r + 1.0) + s);
    RotateClose(a, p);
    CloseTwice(AsComplex(Rotate(a, p)), ClampBoth(Mul(b, q)), ClampBoth(Mul(c, v)), 1.5, 1.5 * (r + 1.0) + s);
  }

  /** The largest error of output `k` of a filter with `n` taps. */
  function Error(k: nat, n: nat): real {
    7.875 * k as real + 2.25 * n as real + 4.5
  }

  lemma WindowClose(w: seq<Iq>, b: seq<Complex>)
    requires InUnitSquare(b) && |w| == |b| && AccumulationExact(w, QuantizeTaps(b))
    ensures Close(AsComplex(AccumulateWindow(w, QuantizeTaps(b))), ClampBoth(Dot(AsComplexes(w), b, |b|)),
                  1.5 + 2.25 * |b| as real)
  {
    hide Close, Over15, AsComplex, AsComplexes, ClampBoth, AccumulateWindow, AccumulationExact, Dot, InUnitSquare;
    var t := QuantizeTaps(b);
    AccumulatorClose(w, t);
    DotClose(w, b, |b|);
    var sum, exact := Over15(Dot(AsComplexes(w), AsComplexes(t), |t|)), Dot(AsComplexes(w), b, |b|);
    ClampClose(sum, exact, 2.25 * |b| as real);
    CloseTwice(AsComplex(AccumulateWindow(w, t)), ClampBoth(sum), ClampBoth(exact), 1.5, 2.25 * |b| as real);
  }

  /**
   One output of the kernel: `p` is close to the unit `v` after `k` outputs. The exact value is the
   dot product, saturated, rotated by `v` and saturated again.
   */
  lemma EmitClose(w: seq<Iq>, b: seq<Complex>, p: Iq, v: Complex, k: nat)
    requires InUnitSquare(b) && |w| == |b| && AccumulationExact(w, QuantizeTaps(b))
    requires IsUnit(v) && Close(AsComplex(p), Scale(32767.0, v), DRIFT * k as real)
    ensures Close(AsComplex(Rotate(AccumulateWindow(w, QuantizeTaps(b)), p)),
                  ClampBoth(Mul(ClampBoth(Dot(AsComplexes(w), b, |b|)), v)), Error(k, |b|))
  {
    hide Close, AsComplex, ClampBoth, AccumulateWindow, Dot, Mul, Scale, Rotate, IsUnit;
    WindowClose(w, b);
    OutputClose(AccumulateWindow(w, QuantizeTaps(b)), p, ClampBoth(Dot(AsComplexes(w), b, |b|)), v,
                DRIFT * k as real, 1.5 + 2.25 * |b| as real);
  }

  // ---- Whole streams ----

  /** The taps a filter is created with, band-passed and reversed. */
  function Prepared(h: seq<real>, z: Complex): (b: seq<Complex>)
    ensures |b| == |h|
  {
    Swapped(BandPass(h, z))
  }

  function Silence(n: nat): (s: seq<Iq>)
    ensures |s| == n
  {
    seq(n, _ => IQ_ZERO)
  }

  /** The output of a fixed-point filter for `x` when it starts with silence. */
  function FixedOutput(x: seq<Iq>, t: seq<Iq>, incr: Iq, decimation: nat): seq<Iq>
    requires 0 < decimation <= |t|
  {
    Filter(Cs16Kernel(t, decimation, incr), Silence(|t| - 1) + x, Iq(0x7fff, 0)).out
  }

  /** The output of the filter that is created for taps `h` and the rotation `z`. */
  function FixedFiltered(x: seq<Iq>, h: seq<real>, z: Complex, decimation: nat): seq<Iq>
    requires 0 < decimation <= |h| && IsUnit(z) && InUnitSquare(Prepared(h, z))
  {
    FixedOutput(x, QuantizeTaps(Prepared(h, z)), PhaseIncrement(z, decimation), decimation)
  }

  lemma {:induction false} PowPow(c: Complex, d: nat, k: nat)
    ensures Pow(Pow(c, d), k) == Pow(c, k * d)
  {
    if k == 0 {
    } else {
      PowPow(c, d, k - 1);
      PowStep(c, k - 1, d);
    }
  }

  /** The window at `n` of a stream that starts with silence. */
  function Window(x: seq<Iq>, len: nat, n: nat): (w: seq<Iq>)
    requires 0 < len && n < |x|
    ensures |w| == len
  {
    (Silence(len - 1) + x)[n..n + len]
  }

  lemma FixedCount(x: seq<Iq>, t: seq<Iq>, incr: Iq, decimation: nat, k: nat, n: nat)
    requires 0 < decimation <= |t| && k < CeilDiv(|x|, decimation) && n == k * decimation
    ensures n < |x| && k < |FixedOutput(x, t, incr, decimation)|
    ensures k < Positions(|t|, decimation, |t| - 1 + |x|)
  {
    var kernel, s := Cs16Kernel(t, decimation, incr), Silence(|t| - 1) + x;
    hide AccumulateWindow, Rotate, Filter, Silence, CeilDiv, Positions;
    OutputCount(kernel, Silence(|t| - 1), x, Iq(0x7fff, 0));
    FilterCounts(kernel, s, Iq(0x7fff, 0));
    IndexBelow(k, |x|, decimation);
  }

  /** There is an output `k`, computed from the window at `n` and the phase after `k` steps. */
  lemma FixedOutputAt(x: seq<Iq>, t: seq<Iq>, incr: Iq, decimation: nat, k: nat, n: nat)
    requires 0 < decimation <= |t| && k < CeilDiv(|x|, decimation) && n == k * decimation
    ensures n < |x| && k < |FixedOutput(x, t, incr, decimation)|
    ensures FixedOutput(x, t, incr, decimation)[k]
            == Rotate(AccumulateWindow(Window(x, |t|, n), t),
                      PhaseAt(Cs16Kernel(t, decimation, incr), Iq(0x7fff, 0), k))
  {
    hide AccumulateWindow, Rotate, Filter, Silence, CeilDiv, Positions, PhaseAt;
    FixedCount(x, t, incr, decimation, k, n);
    OutputAt(Cs16Kernel(t, decimation, incr), Silence(|t| - 1) + x, Iq(0x7fff, 0), k);
  }

  lemma PrefixedComplexes(x: seq<Iq>, n: nat, from: nat, len: nat)
    requires from + len <= n + |x|
    ensures AsComplexes((Silence(n) + x)[from..from + len]) == (Zeros(n) + AsComplexes(x))[from..from + len]
  {
  }

  /** An exact sample, saturated before and after the rotation by `turn`, as the fixed-point path does. */
  function Saturated(exact: Complex, turn: Complex): Complex {
    ClampBoth(Mul(ClampBoth(Mul(exact, Conj(turn))), turn))
  }

  lemma TurnedBack(a: Complex, turn: Complex)
    requires IsUnit(turn)
    ensures Mul(Mul(a, turn), Conj(turn)) == a && Mul(Mul(a, Conj(turn)), turn) == a
  {
    MulAssociates(a, turn, Conj(turn));
    MulAssociates(a, Conj(turn), turn);
    UnitTimesConj(turn);
    MulCommutes(turn, Conj(turn));
    MulOne(a);
  }

  /** A sample inside the circle of full scale is not touched by saturation. */
  lemma SmallIsUnsaturated(exact: Complex, turn: Complex)
    requires IsUnit(turn) && Within(exact, 32767.0)
    ensures Saturated(exact, turn) == exact
  {
    UnitTimesConj(turn);
    UnitWithin(Conj(turn));
    MulWithin(exact, Conj(turn), 32767.0, 1.0);
    SmallFits(Mul(exact, Conj(turn)));
    SmallFits(exact);
    TurnedBack(exact, turn);
  }

  lemma UnitWithin(u: Complex)
    requires IsUnit(u)
    ensures Within(u, 1.0)
  {
  }

  lemma SmallFits(c: Complex)
    requires Within(c, 32767.0)
    ensures ClampBoth(c) == c
  {
    SquareNonNegativeOf(c);
    SquareOfNegative(c.re);
    SquareOfNegative(c.im);
    RootAtMost(c.re, 32767.0);
    RootAtMost(-c.re, 32767.0);
    RootAtMost(c.im, 32767.0);
    RootAtMost(-c.im, 32767.0);
  }

  /** The conditions on a created filter: odd many taps that convert to int16 and sums that never wrap. */
  ghost predicate Sound(h: seq<real>, z: Complex, decimation: nat) {
    && |h| % 2 == 1 && 0 < decimation <= |h| && IsUnit(z) && InUnitSquare(Prepared(h, z))
    && TapsBounded(QuantizeTaps(Prepared(h, z))) && SumsFit(QuantizeTaps(Prepared(h, z)))
  }

  /** Filters for low-pass taps of magnitude below one are sound, up to 46340 taps. */
  lemma CreatedIsSound(h: seq<real>, z: Complex, decimation: nat)
    requires |h| % 2 == 1 && 0 < decimation <= |h| <= DIAGONAL && IsUnit(z)
    requires forall i :: 0 <= i < |h| ==> -1.0 < h[i] < 1.0
    ensures Sound(h, z, decimation)
  {
    CreatedFiltersExact(h, z);
    QuantizedTapsBounded(Prepared(h, z));
    SaturatingAccumulation(QuantizeTaps(Prepared(h, z)));
  }

  /** The exact dot product of the window at `n`, rotated, is the exact down-converted sample. */
  lemma ExactOutput(x: seq<Complex>, h: seq<real>, z: Complex, n: nat)
    requires |h| % 2 == 1 && IsUnit(z) && n < |x|
    ensures var turn, dot := Pow(Conj(z), n), Dot((Zeros(|h| - 1) + x)[n..n + |h|], Prepared(h, z), |h|);
            IsUnit(turn) && dot == Mul(LowPass(x, h, z, n, 0), Conj(turn))
  {
    var turn, dot := Pow(Conj(z), n), Dot((Zeros(|h| - 1) + x)[n..n + |h|], Prepared(h, z), |h|);
    UnitTimesConj(z);
    UnitPow(Conj(z), n);
    PartialDot(x, h, z, n, |h|);
    TurnedBack(dot, turn);
  }

  /** The fixed-point phase after `k` outputs is close to the rotation at sample `n`. */
  lemma PhaseAtOutput(t: seq<Iq>, z: Complex, decimation: nat, k: nat, n: nat)
    requires IsUnit(z) && n == k * decimation
    ensures var p := PhaseAt(Cs16Kernel(t, decimation, PhaseIncrement(z, decimation)), Iq(0x7fff, 0), k);
            Close(AsComplex(p), Scale(32767.0, Pow(Conj(z), n)), DRIFT * k as real)
  {
    IncrementIsCutOff(z, decimation);
    PowPow(Conj(z), decimation, k);
    hide Close, AsComplex, IsUnit, Pow, CutOff;
    OscillatorDrift(t, decimation, PhaseIncrement(z, decimation), Pow(Conj(z), decimation), k);
  }

  /** `y` is within `e` of the exact value as the path saturates it, and of the value itself if that is small. */
  ghost predicate Near(y: Iq, exact: Complex, turn: Complex, e: real) {
    && Close(AsComplex(y), Saturated(exact, turn), e)
    && (Within(exact, 32767.0) ==> Close(AsComplex(y), exact, e))
  }

  lemma WindowNear(w: seq<Iq>, b: seq<Complex>, p: Iq, exact: Complex, turn: Complex, k: nat)
    requires InUnitSquare(b) && |w| == |b| && AccumulationExact(w, QuantizeTaps(b))
    requires IsUnit(turn) && Close(AsComplex(p), Scale(32767.0, turn), DRIFT * k as real)
    requires Dot(AsComplexes(w), b, |b|) == Mul(exact, Conj(turn))
    ensures Near(Rotate(AccumulateWindow(w, QuantizeTaps(b)), p), exact, turn, Error(k, |b|))
  {
    hide Close, Within, AsComplex, AccumulateWindow, Rotate, Mul, Dot, Scale, IsUnit, Error;
    EmitClose(w, b, p, turn, k);
    if Within(exact, 32767.0) {
      SmallIsUnsaturated(exact, turn);
    }
  }

  /** The window of output `k`, and what is exact about it. */
  lemma WindowFacts(x: seq<Iq>, h: seq<real>, z: Complex, decimation: nat, n: nat)
    requires Sound(h, z, decimation) && n < |x|
    ensures var w, b, turn := Window(x, |h|, n), Prepared(h, z), Pow(Conj(z), n);
            && IsUnit(turn) && |b| == |h| && AccumulationExact(w, QuantizeTaps(b))
            && Dot(AsComplexes(w), b, |b|) == Mul(LowPass(AsComplexes(x), h, z, n, 0), Conj(turn))
  {
    var w, t := Window(x, |h|, n), QuantizeTaps(Prepared(h, z));
    hide Mul, Pow, Dot, LowPass, IsUnit, AsComplex, Conj, QuantizeTap, InUnitSquare, AccumulationExact, SumsFit;
    ExactOutput(AsComplexes(x), h, z, n);
    PrefixedComplexes(x, |h| - 1, n, |h|);
    SaturatingAccumulation(t);
    assert AccumulationExact(w, t);
  }

  lemma DownConvertedAt(x: seq<Complex>, h: seq<real>, z: Complex, decimation: nat, k: nat, n: nat)
    requires 0 < decimation && k < CeilDiv(|x|, decimation) && n == k * decimation
    ensures k < |DownConverted(x, h, z, decimation)| && DownConverted(x, h, z, decimation)[k] == LowPass(x, h, z, n, 0)
  {
  }

  /**
   The fixed-point filter against exact down-conversion of the same samples: output `k` of a filter
   with `n` taps is within 7.875 * k + 2.25 * n + 4.5 units of the exact value, saturated as the path
   does it; and of the exact value itself if that lies inside the circle of full scale.
   */
  lemma FixedIsClose(x: seq<Iq>, h: seq<real>, z: Complex, decimation: nat, k: nat, n: nat)
    requires Sound(h, z, decimation) && k < CeilDiv(|x|, decimation) && n == k * decimation
    ensures k < |FixedFiltered(x, h, z, decimation)| && k < |DownConverted(AsComplexes(x), h, z, decimation)|
    ensures Near(FixedFiltered(x, h, z, decimation)[k], DownConverted(AsComplexes(x), h, z, decimation)[k],
                 Pow(Conj(z), n), Error(k, |h|))
  {
    var t := QuantizeTaps(Prepared(h, z));
    hide AccumulationExact, AccumulateWindow, Rotate, Mul, Dot, Scale, IsUnit, InUnitSquare, Prepared, QuantizeTaps;
    hide Close, AsComplex, Near, LowPass, Pow, TapsBounded, SumsFit, PhaseIncrement, Error, DownConverted;
    hide FixedOutput, Cs16Kernel, PhaseAt, AsComplexes, Window;
    DownConvertedAt(AsComplexes(x), h, z, decimation, k, n);
    FixedOutputAt(x, t, PhaseIncrement(z, decimation), decimation, k, n);
    WindowFacts(x, h, z, decimation, n);
    PhaseAtOutput(t, z, decimation, k, n);
    WindowNear(Window(x, |h|, n), Prepared(h, z),
               PhaseAt(Cs16Kernel(t, decimation, PhaseIncrement(z, decimation)), Iq(0x7fff, 0), k),
               LowPass(AsComplexes(x), h, z, n, 0), Pow(Conj(z), n), k);
  }

  // ---- Where it does not stay close ----

  /** The fixed-point oscillator that should stand still loses one unit with every output. */
  function Faded(k: nat): Iq {
    Iq((if k <= 0x7fff then 0x7fff - k else 0) as int16, 0)
  }

  lemma ShiftLosesOne(a: int)
    requires 0 < a <= 0x7fff
    ensures Shift15(a * 0x7fff) == a - 1
  {
    assert a * 0x7fff == 0x8000 * (a - 1) + (0x8000 - a);
  }

  lemma FadesByOne(k: nat)
    ensures Rotate(Faded(k), Iq(0x7fff, 0)) == Faded(k + 1)
  {
    var a, one := Faded(k), Iq(0x7fff, 0);
    assert RotatedRe(a, one) == a.re as int * 0x7fff && RotatedIm(a, one) == 0;
    hide RotatedRe, RotatedIm;
    assert Shift15(0) == 0;
    if a.re > 0 {
      ShiftLosesOne(a.re as int);
    }
    hide Shift15;
  }

  lemma {:induction false} StandingPhaseFades(taps: seq<Iq>, decimation: nat, k: nat)
    ensures PhaseAt(Cs16Kernel(taps, decimation, Iq(0x7fff, 0)), Iq(0x7fff, 0), k) == Faded(k)
  {
    hide AccumulateWindow, Rotate;
    if k == 0 {
    } else {
      StandingPhaseFades(taps, decimation, k - 1);
      FadesByOne(k - 1);
      hide Faded;
    }
  }

  /** A faded phase silences every accumulator if and only if 32767 outputs have been made. */
  lemma SilentOnceFaded(k: nat)
    ensures (forall a: Iq :: Rotate(a, Faded(k)) == IQ_ZERO) <==> k >= 0x7fff
  {
    if k < 0x7fff {
      assert Rotate(Iq(-1, 0), Faded(k)).re == -1;
    }
  }

  /**
   An offset that is a multiple of the output rate, zero included, makes the exact oscillator stand
   still. The fixed-point one fades: output `k` is the accumulator times (32767 - k) / 32768, and from
   output 32767 on there is nothing but zeros, whatever the input.
   */
  lemma StandingFilterFades(x: seq<Iq>, h: seq<real>, z: Complex, decimation: nat, k: nat, n: nat)
    requires 0 < decimation <= |h| && IsUnit(z) && InUnitSquare(Prepared(h, z))
    requires k < CeilDiv(|x|, decimation) && n == k * decimation && Pow(Conj(z), decimation) == ONE
    ensures n < |x| && k < |FixedFiltered(x, h, z, decimation)|
    ensures var a := AccumulateWindow(Window(x, |h|, n), QuantizeTaps(Prepared(h, z)));
            FixedFiltered(x, h, z, decimation)[k] == Rotate(a, Faded(k))
    ensures k >= 0x7fff ==> FixedFiltered(x, h, z, decimation)[k] == IQ_ZERO
  {
    var t := QuantizeTaps(Prepared(h, z));
    IncrementIsCutOff(z, decimation);
    assert PhaseIncrement(z, decimation) == Iq(0x7fff, 0);
    hide AccumulateWindow, Rotate, IsUnit, InUnitSquare, Prepared, QuantizeTaps, Pow, PhaseIncrement, Faded;
    hide FixedOutput, Cs16Kernel, PhaseAt, Window;
    FixedOutputAt(x, t, Iq(0x7fff, 0), decimation, k, n);
    StandingPhaseFades(t, decimation, k);
    SilentOnceFaded(k);
  }

  // ---- Both paths on the same input ----

  /** The samples of the fixed-point path are 32768 times those of the exact one. */
  ghost predicate SameSignal(x: seq<Iq>, c: seq<Complex>) {
    |x| == |c| && forall i :: 0 <= i < |x| ==> AsComplex(x[i]) == Scale(32768.0, c[i])
  }

  lemma ScaleAdd(r: real, a: Complex, b: Complex)
    ensures Scale(r, Add(a, b)) == Add(Scale(r, a), Scale(r, b))
  {
  }

  lemma ScaleTwice(r: real, s: real, a: Complex)
    ensures Scale(r, Scale(s, a)) == Scale(s, Scale(r, a))
  {
    assert r * (s * a.re) == s * (r * a.re) && r * (s * a.im) == s * (r * a.im);
  }

  /** Down-conversion is linear. */
  lemma {:induction false} LowPassScales(x: seq<Complex>, c: seq<Complex>, h: seq<real>, z: Complex, n: int, j: nat)
    requires |x| == |c| && (forall i :: 0 <= i < |x| ==> x[i] == Scale(32768.0, c[i])) && j <= |h|
    ensures LowPass(x, h, z, n, j) == Scale(32768.0, LowPass(c, h, z, n, j))
    decreases |h| - j
  {
    if j == |h| {
    } else {
      LowPassScales(x, c, h, z, n, j + 1);
      var m := Mixed(c, z, n - j);
      assert Mixed(x, z, n - j) == Scale(32768.0, m) by {
        if 0 <= n - j < |c| {
          ScaleMul(32768.0, c[n - j], Pow(Conj(z), n - j));
        }
      }
      ScaleTwice(h[j], 32768.0, m);
      ScaleAdd(32768.0, LowPass(c, h, z, n, j + 1), Scale(h[j], m));
    }
  }

  /**
   For the same signal the fixed-point output is as close to 32768 times the output of the exact path,
   wherever that stays inside the circle of full scale.
   */
  lemma PathsAgree(x: seq<Iq>, c: seq<Complex>, h: seq<real>, z: Complex, decimation: nat, k: nat, n: nat)
    requires Sound(h, z, decimation) && k < CeilDiv(|x|, decimation) && n == k * decimation && SameSignal(x, c)
    ensures k < |FixedFiltered(x, h, z, decimation)| && k < |Filtered(c, h, z, decimation)|
    ensures Near(FixedFiltered(x, h, z, decimation)[k], Scale(32768.0, Filtered(c, h, z, decimation)[k]),
                 Pow(Conj(z), n), Error(k, |h|))
  {
    hide Near, Scale, LowPass, FixedFiltered, Filtered, Error, IsUnit, Pow;
    hide InUnitSquare, Prepared, QuantizeTaps, TapsBounded, SumsFit;
    SameLength(x, c);
    FilterDownConverts(c, h, z, decimation);
    LowPassScales(AsComplexes(x), c, h, z, n, 0);
    FixedIsClose(x, h, z, decimation, k, n);
  }

  lemma SameLength(x: seq<Iq>, c: seq<Complex>)
    requires SameSignal(x, c)
    ensures |x| == |c| && forall i :: 0 <= i < |x| ==> AsComplexes(x)[i] == Scale(32768.0, c[i])
  {
  }

  /** The samples both paths make of signed bytes, and of int16 values, are the same signal. */
  lemma SignedInput(bytes: seq<int8>, values: seq<int16>)
    ensures SameSignal(XlatingCs16.Samples(Cs8Values(bytes), |bytes| / 2), Cs8Samples(bytes))
    ensures SameSignal(XlatingCs16.Samples(values, |values| / 2), Cs16Samples(values))
  {
    forall i | 0 <= i < |bytes| / 2
      ensures AsComplex(XlatingCs16.Samples(Cs8Values(bytes), |bytes| / 2)[i]) == Scale(32768.0, Cs8Samples(bytes)[i])
    {
      SignedAgrees(bytes[2 * i], bytes[2 * i + 1]);
    }
    forall i | 0 <= i < |values| / 2
      ensures AsComplex(XlatingCs16.Samples(values, |values| / 2)[i]) == Scale(32768.0, Cs16Samples(values)[i])
    {
      Int16Agrees(values[2 * i], values[2 * i + 1]);
    }
  }

  /** A constant at zero offset: on the exact path it comes out times the gain, on the fixed-point path it is gone. */
  lemma ConstantFadesAway(c: Complex, x: seq<Iq>, y: seq<Complex>, h: seq<real>, z: Complex, decimation: nat, k: nat,
                          n: nat)
    requires ZeroOffset(z) && |h| % 2 == 1 && 0 < decimation <= |h| && InUnitSquare(Prepared(h, z))
    requires SameSignal(x, y) && forall m :: 0 <= m < |y| ==> y[m] == c
    requires k < CeilDiv(|x|, decimation) && n == k * decimation && |h| - 1 <= n && 0x7fff <= k
    ensures HasAt(Filtered(y, h, z, decimation), k, Scale(Sum(h, 0), c))
    ensures k < |FixedFiltered(x, h, z, decimation)| && FixedFiltered(x, h, z, decimation)[k] == IQ_ZERO
  {
    hide ZeroOffset, IsUnit, Pow, Conj, FixedFiltered, Filtered, Prepared, InUnitSquare, Sum, Scale, AsComplex, HasAt;
    ConstantIsScaled(c, y, h, z, decimation, k);
    StandsStill(z, decimation);
    hide AccumulateWindow, Rotate, Window, QuantizeTaps, Faded;
    StandingFilterFades(x, h, z, decimation, k, n);
  }

  lemma StandsStill(z: Complex, n: nat)
    requires ZeroOffset(z)
    ensures IsUnit(z) && Pow(Conj(z), n) == ONE
  {
    ZeroOffsetIsOne(z);
    assert Conj(z) == ONE;
    hide Pow, Conj;
    PowOfOne(n);
  }
}
