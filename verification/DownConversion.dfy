/**
 What the filter is for: mixing the signal down, low-pass filtering it and keeping every
 decimation-th sample. The code reorders these steps; here both orders are shown to agree.
 */
module DownConversion {
  import opened Arithmetic
  import opened ComplexNumbers
  import opened DotProducts
  import opened Streaming
  import opened Taps
  import opened XlatingSpec

  /** Sample `m` of the signal mixed down by `z` per sample; silence before the start. */
  function Mixed(x: seq<Complex>, z: Complex, m: int): Complex {
    if 0 <= m < |x| then Mul(x[m], Pow(Conj(z), m)) else ZERO
  }

  /** Convolution of the mixed signal with the low-pass taps from tap `j` on, at time `n`. */
  function LowPass(x: seq<Complex>, h: seq<real>, z: Complex, n: int, j: nat): Complex
    requires j <= |h|
    decreases |h| - j
  {
    if j == |h| then ZERO else Add(LowPass(x, h, z, n, j + 1), Scale(h[j], Mixed(x, z, n - j)))
  }

  /** Textbook digital down-conversion: mix, low-pass filter, keep every `decimation`-th sample. */
  function DownConverted(x: seq<Complex>, h: seq<real>, z: Complex, decimation: nat): (y: seq<Complex>)
    requires 0 < decimation
    ensures |y| == CeilDiv(|x|, decimation)
  {
    seq(CeilDiv(|x|, decimation), k => LowPass(x, h, z, k * decimation, 0))
  }

  /** The kernel that `create_frequency_xlating_filter` sets up. */
  function XlatingKernel(h: seq<real>, z: Complex, decimation: nat): Kernel<Complex, Complex, Complex> {
    Cf32Kernel(Swapped(BandPass(h, z)), decimation, Pow(Conj(z), decimation))
  }

  lemma PowStep(c: Complex, k: nat, decimation: nat)
    ensures Pow(c, (k + 1) * decimation) == Mul(Pow(c, k * decimation), Pow(c, decimation))
  {
    OneMoreStride(k, decimation);
    PowAdd(c, k * decimation, decimation);
  }

  /** What the filter yields for `x` when it starts with silence. */
  function Filtered(x: seq<Complex>, h: seq<real>, z: Complex, decimation: nat): seq<Complex>
    requires 0 < decimation <= |h|
  {
    Filter(XlatingKernel(h, z, decimation), Zeros(|h| - 1) + x, ONE).out
  }

  /** The phase after k outputs is z^-(k * decimation). */
  lemma {:induction false} PhaseIsPower(taps: seq<Complex>, z: Complex, decimation: nat, k: nat)
    ensures PhaseAt(Cf32Kernel(taps, decimation, Pow(Conj(z), decimation)), ONE, k) == Pow(Conj(z), k * decimation)
  {
    if k == 0 {
    } else {
      PhaseIsPower(taps, z, decimation, k - 1);
      PowStep(Conj(z), k - 1, decimation);
    }
  }

  /** One product, rotated: the band-pass tap undoes part of the rotation, leaving the mixed sample. */
  lemma TermIsMixed(s: Complex, h: real, z: Complex, j: nat, n: nat)
    requires IsUnit(z) && j <= n
    ensures Mul(Mul(s, Scale(h, Pow(z, j))), Pow(Conj(z), n)) == Scale(h, Mul(s, Pow(Conj(z), n - j)))
  {
    var u, v := Pow(z, j), Pow(Conj(z), n);
    calc {
      Mul(Mul(s, Scale(h, u)), v);
      { ScaleMul(h, s, u); }
      Mul(Scale(h, Mul(s, u)), v);
      { ScaleMul(h, Mul(s, u), v); }
      Scale(h, Mul(Mul(s, u), v));
      { MulAssociates(s, u, v); PowCancels(z, j, n); }
      Scale(h, Mul(s, Pow(Conj(z), n - j)));
    }
  }

  lemma RotatedTerm(x: seq<Complex>, h: real, z: Complex, n: nat, j: nat, s: Complex)
    requires IsUnit(z) && n < |x| && s == if n >= j then x[n - j] else ZERO
    ensures Mul(Mul(s, Scale(h, Pow(z, j))), Pow(Conj(z), n)) == Scale(h, Mixed(x, z, n - j))
  {
    if n >= j {
      TermIsMixed(s, h, z, j, n);
    } else {
      MulOne(Scale(h, Pow(z, j)));
      MulOne(Pow(Conj(z), n));
    }
  }

  /** Sample and tap of the `i`th product are those of tap `|h| - 1 - i` of the low-pass. */
  lemma ProductAt(x: seq<Complex>, h: seq<real>, z: Complex, n: nat, i: nat)
    requires |h| % 2 == 1 && i < |h| && n < |x|
    ensures var j := |h| - 1 - i;
            && (Zeros(|h| - 1) + x)[n..n + |h|][i] == (if n >= j then x[n - j] else ZERO)
            && Swapped(BandPass(h, z))[i] == Scale(h[j], Pow(z, j))
  {
  }

  /** The first `t` products of the reversed band-pass filter are the last `t` taps of the low-pass. */
  lemma {:induction false} PartialDot(x: seq<Complex>, h: seq<real>, z: Complex, n: nat, t: nat)
    requires |h| % 2 == 1 && IsUnit(z) && t <= |h| && n < |x|
    ensures var w := (Zeros(|h| - 1) + x)[n..n + |h|];
            Mul(Dot(w, Swapped(BandPass(h, z)), t), Pow(Conj(z), n)) == LowPass(x, h, z, n, |h| - t)
  {
    var w := (Zeros(|h| - 1) + x)[n..n + |h|];
    var taps, v := Swapped(BandPass(h, z)), Pow(Conj(z), n);
    if t == 0 {
      MulOne(v);
    } else {
      var i, j := t - 1, |h| - t;
      hide Swapped, BandPass, Zeros, Mul;
      PartialDot(x, h, z, n, t - 1);
      MulDistributes(Dot(w, taps, i), Mul(w[i], taps[i]), v);
      ProductAt(x, h, z, n, i);
      RotatedTerm(x, h[j], z, n, j, w[i]);
    }
  }

  /** Output `i` is the rotated dot product of the window at `n`. */
  lemma OutputIsRotatedDot(s: seq<Complex>, h: seq<real>, z: Complex, decimation: nat, i: nat, n: nat)
    requires 0 < decimation <= |h| && i < Positions(|h|, decimation, |s|) && n == i * decimation
    ensures n + |h| <= |s| && i < |Filter(XlatingKernel(h, z, decimation), s, ONE).out|
    ensures Filter(XlatingKernel(h, z, decimation), s, ONE).out[i]
            == Mul(Dot(s[n..n + |h|], Swapped(BandPass(h, z)), |h|), Pow(Conj(z), n))
  {
    OutputAt(XlatingKernel(h, z, decimation), s, ONE, i);
    PhaseIsPower(Swapped(BandPass(h, z)), z, decimation, i);
  }

  lemma OutputIsLowPass(x: seq<Complex>, h: seq<real>, z: Complex, decimation: nat, i: nat)
    requires |h| % 2 == 1 && IsUnit(z) && 0 < decimation <= |h| && i < CeilDiv(|x|, decimation)
    ensures var out := Filtered(x, h, z, decimation);
            i < |out| && out[i] == LowPass(x, h, z, i * decimation, 0)
  {
    var s := Zeros(|h| - 1) + x;
    OutputCount(XlatingKernel(h, z, decimation), Zeros(|h| - 1), x, ONE);
    FilterCounts(XlatingKernel(h, z, decimation), s, ONE);
    IndexBelow(i, |x|, decimation);
    OutputIsRotatedDot(s, h, z, decimation, i, i * decimation);
    PartialDot(x, h, z, i * decimation, |h|);
  }

  /**
   Down-conversion equivalence. For an odd number of taps the filter, started with silence as
   history, yields exactly the mixed, filtered and decimated signal.
   */
  lemma FilterDownConverts(x: seq<Complex>, h: seq<real>, z: Complex, decimation: nat)
    requires |h| % 2 == 1 && IsUnit(z) && 0 < decimation <= |h|
    ensures Filtered(x, h, z, decimation) == DownConverted(x, h, z, decimation)
  {
    var y := DownConverted(x, h, z, decimation);
    OutputCount(XlatingKernel(h, z, decimation), Zeros(|h| - 1), x, ONE);
    forall i | 0 <= i < |y|
      ensures Filtered(x, h, z, decimation)[i] == y[i]
    {
      OutputIsLowPass(x, h, z, decimation, i);
    }
  }

  // ---- Constant input at zero offset ----

  function Sum(h: seq<real>, from: nat): real
    requires from <= |h|
    decreases |h| - from
  {
    if from == |h| then 0.0 else h[from] + Sum(h, from + 1)
  }

  lemma {:induction false} NeverRotated(a: Complex, u: Complex, n: nat)
    requires Mul(a, u) == a
    ensures Mul(a, Pow(u, n)) == a
  {
    if n == 0 {
      MulOne(a);
    } else {
      NeverRotated(a, u, n - 1);
      MulAssociates(a, Pow(u, n - 1), u);
    }
  }

  lemma ScaleSum(a: real, b: real, c: Complex)
    ensures Add(Scale(a, c), Scale(b, c)) == Scale(b + a, c)
  {
    assert (b + a) * c.re == b * c.re + a * c.re;
    assert (b + a) * c.im == b * c.im + a * c.im;
  }

  lemma {:induction false} ConstantLowPass(c: Complex, x: seq<Complex>, h: seq<real>, z: Complex, n: nat, j: nat)
    requires Mul(c, Conj(z)) == c
    requires j <= |h| && |h| - 1 <= n < |x|
    requires forall m :: 0 <= m < |x| ==> x[m] == c
    ensures LowPass(x, h, z, n, j) == Scale(Sum(h, j), c)
    decreases |h| - j
  {
    if j == |h| {
    } else {
      ConstantLowPass(c, x, h, z, n, j + 1);
      assert Mixed(x, z, n - j) == c by {
        NeverRotated(c, Conj(z), n - j);
      }
      ScaleSum(Sum(h, j + 1), h[j], c);
    }
  }

  /** A rotation by the angle zero. */
  predicate ZeroOffset(z: Complex) {
    IsUnit(z) && z.im == 0.0 && z.re > 0.0
  }

  lemma ZeroOffsetIsOne(z: Complex)
    ensures ZeroOffset(z) <==> z == ONE
  {
    if ZeroOffset(z) {
      RootOfOne(z.re);
    }
  }

  lemma RootOfOne(x: real)
    requires x * x == 1.0 && x > 0.0
    ensures x == 1.0
  {
    assert (x - 1.0) * (x + 1.0) == x * x - 1.0;
  }

  /** Sample `k` exists and is `v`. */
  predicate HasAt(y: seq<Complex>, k: nat, v: Complex) {
    k < |y| && y[k] == v
  }

  lemma UnchangedIsScaled(c: Complex, x: seq<Complex>, h: seq<real>, z: Complex, decimation: nat, k: nat)
    requires IsUnit(z) && Mul(c, Conj(z)) == c
    requires |h| % 2 == 1 && 0 < decimation <= |h|
    requires forall m :: 0 <= m < |x| ==> x[m] == c
    requires k < CeilDiv(|x|, decimation) && k * decimation >= |h| - 1
    ensures HasAt(Filtered(x, h, z, decimation), k, Scale(Sum(h, 0), c))
  {
    FilterDownConverts(x, h, z, decimation);
    IndexBelow(k, |x|, decimation);
    ConstantLowPass(c, x, h, z, k * decimation, 0);
  }

  /**
   A constant signal at zero offset comes out multiplied by the sum of the taps,
   once the silence the filter starts with has left the window.
   */
  lemma ConstantIsScaled(c: Complex, x: seq<Complex>, h: seq<real>, z: Complex, decimation: nat, k: nat)
    requires ZeroOffset(z)
    requires |h| % 2 == 1 && 0 < decimation <= |h|
    requires forall m :: 0 <= m < |x| ==> x[m] == c
    requires k < CeilDiv(|x|, decimation) && k * decimation >= |h| - 1
    ensures HasAt(Filtered(x, h, z, decimation), k, Scale(Sum(h, 0), c))
  {
    OneChangesNothing(c, z);
    UnchangedIsScaled(c, x, h, z, decimation, k);
  }

  lemma OneChangesNothing(c: Complex, z: Complex)
    requires ZeroOffset(z)
    ensures IsUnit(z) && Mul(c, Conj(z)) == c
  {
    ZeroOffsetIsOne(z);
    MulOne(c);
  }

  // ---- A carrier: what the filter does to each frequency ----

  /** The response of taps `h`, from tap `j` on, to a carrier that turns by `v` per sample. */
  function Response(h: seq<real>, v: Complex, j: nat): Complex
    requires j <= |h|
    decreases |h| - j
  {
    if j == |h| then ZERO else Add(Response(h, v, j + 1), Scale(h[j], Pow(Conj(v), j)))
  }

  /** A carrier of amplitude `c` that turns by `w` per sample. */
  ghost predicate IsCarrier(x: seq<Complex>, c: Complex, w: Complex) {
    forall m :: 0 <= m < |x| ==> x[m] == Mul(c, Pow(w, m))
  }

  lemma {:induction false} PowOfProduct(a: Complex, b: Complex, n: nat)
    ensures Pow(Mul(a, b), n) == Mul(Pow(a, n), Pow(b, n))
  {
    if n == 0 {
      MulOne(ONE);
    } else {
      PowOfProduct(a, b, n - 1);
      var p, q := Pow(a, n - 1), Pow(b, n - 1);
      calc {
        Mul(Mul(p, q), Mul(a, b));
        { MulAssociates(p, q, Mul(a, b)); MulAssociates(q, a, b); }
        Mul(p, Mul(Mul(q, a), b));
        { MulCommutes(q, a); MulAssociates(a, q, b); }
        Mul(p, Mul(a, Mul(q, b)));
        { MulAssociates(p, a, Mul(q, b)); }
        Mul(Mul(p, a), Mul(q, b));
      }
    }
  }

  /** Mixed down, a carrier turns by the difference. */
  lemma MixedCarrier(x: seq<Complex>, c: Complex, w: Complex, z: Complex, m: nat)
    requires IsCarrier(x, c, w) && m < |x|
    ensures Mixed(x, z, m) == Mul(c, Pow(Mul(w, Conj(z)), m))
  {
    PowOfProduct(w, Conj(z), m);
    MulAssociates(c, Pow(w, m), Pow(Conj(z), m));
  }

  /** v^(n-j) is v^n turned back by v^j. */
  lemma PowBack(v: Complex, n: nat, j: nat)
    requires IsUnit(v) && j <= n
    ensures Mul(Pow(v, n), Pow(Conj(v), j)) == Pow(v, n - j)
  {
    UnitTimesConj(v);
    PowCancels(Conj(v), j, n);
    assert Conj(Conj(v)) == v;
    MulCommutes(Pow(v, n), Pow(Conj(v), j));
  }

  lemma {:induction false} CarrierLowPass(x: seq<Complex>, c: Complex, w: Complex, h: seq<real>, z: Complex,
                                         n: nat, j: nat)
    requires IsCarrier(x, c, w) && IsUnit(w) && IsUnit(z) && j <= |h| && |h| - 1 <= n < |x|
    ensures var v := Mul(w, Conj(z));
            LowPass(x, h, z, n, j) == Mul(Mul(c, Pow(v, n)), Response(h, v, j))
    decreases |h| - j
  {
    var v := Mul(w, Conj(z));
    var a := Mul(c, Pow(v, n));
    UnitTimesConj(z);
    UnitClosed(w, Conj(z));
    if j == |h| {
      MulOne(a);
    } else {
      CarrierLowPass(x, c, w, h, z, n, j + 1);
      MixedCarrier(x, c, w, z, n - j);
      PowBack(v, n, j);
      hide Mul, Pow, Mixed, Scale, Add, IsUnit;
      CarrierTerm(c, v, h[j], n, j);
      MulAdds(a, Response(h, v, j + 1), Scale(h[j], Pow(Conj(v), j)));
    }
  }

  lemma CarrierTerm(c: Complex, v: Complex, h: real, n: nat, j: nat)
    requires j <= n && Mul(Pow(v, n), Pow(Conj(v), j)) == Pow(v, n - j)
    ensures Scale(h, Mul(c, Pow(v, n - j))) == Mul(Mul(c, Pow(v, n)), Scale(h, Pow(Conj(v), j)))
  {
    MulAssociates(c, Pow(v, n), Pow(Conj(v), j));
    ScaleMul(h, Mul(c, Pow(v, n)), Pow(Conj(v), j));
  }

  lemma MulAdds(a: Complex, b: Complex, c: Complex)
    ensures Mul(a, Add(b, c)) == Add(Mul(a, b), Mul(a, c))
  {
    MulCommutes(a, Add(b, c));
    MulDistributes(b, c, a);
    MulCommutes(a, b);
    MulCommutes(a, c);
  }

  /**
   Every carrier comes out as a carrier at the difference frequency, decimated, times the response of
   the low-pass taps at that difference, once the silence has left the window.
   */
  lemma CarrierComesOut(x: seq<Complex>, c: Complex, w: Complex, h: seq<real>, z: Complex, decimation: nat,
                        k: nat, n: nat)
    requires IsCarrier(x, c, w) && IsUnit(w) && IsUnit(z) && |h| % 2 == 1 && 0 < decimation <= |h|
    requires k < CeilDiv(|x|, decimation) && n == k * decimation && n >= |h| - 1
    ensures var v := Mul(w, Conj(z));
            HasAt(Filtered(x, h, z, decimation), k, Mul(Mul(c, Pow(v, n)), Response(h, v, 0)))
  {
    FilterDownConverts(x, h, z, decimation);
    IndexBelow(k, |x|, decimation);
    CarrierLowPass(x, c, w, h, z, n, 0);
  }

  lemma PowAtRest(u: Complex, n: nat)
    requires Mul(ONE, u) == ONE
    ensures Pow(u, n) == ONE
  {
    NeverRotated(ONE, u, n);
    MulOne(Pow(u, n));
  }

  /** At rest the response is the sum of the taps. */
  lemma {:induction false} ResponseAtRest(h: seq<real>, v: Complex, j: nat)
    requires Mul(ONE, Conj(v)) == ONE && j <= |h|
    ensures Response(h, v, j) == Complex(Sum(h, j), 0.0)
    decreases |h| - j
  {
    hide Pow, Mul, Conj;
    if j == |h| {
    } else {
      ResponseAtRest(h, v, j + 1);
      PowAtRest(Conj(v), j);
    }
  }

  lemma RestIsOne(v: Complex)
    requires v == ONE
    ensures Mul(ONE, v) == ONE && Mul(ONE, Conj(v)) == ONE
  {
  }

  lemma TimesReal(c: Complex, s: real)
    ensures Mul(c, Complex(s, 0.0)) == Scale(s, c)
  {
  }

  /** In particular the carrier at the client's offset comes out at frequency zero, times the sum of the taps. */
  lemma CarrierAtOffset(x: seq<Complex>, c: Complex, h: seq<real>, z: Complex, decimation: nat, k: nat, n: nat)
    requires IsCarrier(x, c, z) && IsUnit(z) && |h| % 2 == 1 && 0 < decimation <= |h|
    requires k < CeilDiv(|x|, decimation) && n == k * decimation && n >= |h| - 1
    ensures HasAt(Filtered(x, h, z, decimation), k, Scale(Sum(h, 0), c))
  {
    hide IsCarrier, Filtered, Pow, Response, Mul, IsUnit, Conj, HasAt;
    var v := Mul(z, Conj(z));
    UnitTimesConj(z);
    CarrierComesOut(x, c, z, h, z, decimation, k, n);
    RestIsOne(v);
    ResponseAtRest(h, v, 0);
    PowAtRest(v, n);
    MulOne(c);
    TimesReal(c, Sum(h, 0));
  }

  lemma IndexBelow(k: nat, n: nat, d: nat)
    requires 0 < d && k < CeilDiv(n, d)
    ensures k * d < n
  {
    var q := CeilDiv(n, d);
    assert n + d - 1 == q * d + (n + d - 1) % d;
    MulMonotone(k + 1, q, d);
    assert (k + 1) * d == k * d + d;
  }
}
