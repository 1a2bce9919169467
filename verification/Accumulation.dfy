/**
 When the cs16 accumulators are exact: the sum is shifted, narrowed to int32 and only then
 saturated, so a sum beyond 2^46 wraps instead of saturating. Whether some window of samples gets
 there depends on the taps.
 */
module Accumulation {
  import opened ComplexNumbers
  import opened FixedPoint
  import opened MachineInts
  import opened Taps

  /** Sums from -LIMIT up to LIMIT - 1 survive the narrowing. */
  const LIMIT: int := 0x4000_0000_0000

  /** Both accumulators of this window are the nearest int16 to floor(dot / 2^15). */
  ghost predicate AccumulationExact(w: seq<Iq>, t: seq<Iq>)
    requires |w| == |t|
  {
    && Accumulate(DotRe(w, t, |t|)) == Clamp16(Shift15(DotRe(w, t, |t|)))
    && Accumulate(DotIm(w, t, |t|)) == Clamp16(Shift15(DotIm(w, t, |t|)))
  }

  /** And so for every window. */
  ghost predicate AlwaysExact(t: seq<Iq>) {
    forall w: seq<Iq> {:trigger AccumulationExact(w, t)} :: |w| == |t| ==> AccumulationExact(w, t)
  }

  // ---- The largest sum over all windows ----

  /** The largest product of a sample component with a tap component. */
  function Top(c: int): int {
    if c >= 0 then 0x7fff * c else -0x8000 * c
  }

  /** The largest real part that any window has with these taps. */
  function Largest(t: seq<Iq>, n: nat): int
    requires n <= |t|
  {
    if n == 0 then 0 else Largest(t, n - 1) + (Top(t[n - 1].re as int) + Top(-(t[n - 1].im as int)))
  }

  /** Every tap turned by a quarter, so that real parts become imaginary parts, and so on. */
  function Turned(t: seq<Iq>): (r: seq<Iq>)
    requires TapsBounded(t)
    ensures |r| == |t| && TapsBounded(r)
  {
    seq(|t|, i requires 0 <= i < |t| => Iq(t[i].im, (-(t[i].re as int)) as int16))
  }

  /**
   What a caller can add up before creating a filter: the largest real and the largest imaginary part
   over all windows stay below 2^46, and the smallest ones do not go below -2^46.
   */
  predicate SumsFit(t: seq<Iq>)
    requires TapsBounded(t)
  {
    var n := |t|;
    && Largest(t, n) < LIMIT && Largest(Turned(t), n) < LIMIT
    && Largest(Turned(Turned(t)), n) <= LIMIT && Largest(Turned(Turned(Turned(t))), n) <= LIMIT
  }

  lemma TopIsLargest(x: int16, c: int)
    ensures x as int * c <= Top(c)
  {
    if c >= 0 {
      assert (0x7fff - x as int) * c >= 0;
    } else {
      assert (x as int + 0x8000) * -c >= 0;
    }
  }

  lemma {:induction false} LargestIsLargest(w: seq<Iq>, t: seq<Iq>, n: nat)
    requires n <= |w| && n <= |t|
    ensures DotRe(w, t, n) <= Largest(t, n)
  {
    if n == 0 {
    } else {
      LargestIsLargest(w, t, n - 1);
      TopIsLargest(w[n - 1].re, t[n - 1].re as int);
      TopIsLargest(w[n - 1].im, -(t[n - 1].im as int));
    }
  }

  lemma {:induction false} TurnedDot(w: seq<Iq>, t: seq<Iq>, n: nat)
    requires n <= |w| && n <= |t| && TapsBounded(t)
    ensures DotRe(w, Turned(t), n) == DotIm(w, t, n)
    ensures DotIm(w, Turned(t), n) == -DotRe(w, t, n)
  {
    if n == 0 {
    } else {
      TurnedDot(w, t, n - 1);
      var s, c, r := w[n - 1], t[n - 1], Turned(t)[n - 1];
      TurnedTerm(s, c);
      assert RotatedRe(s, r) == RotatedIm(s, c) && RotatedIm(s, r) == -RotatedRe(s, c);
    }
  }

  lemma TurnedTerm(s: Iq, t: Iq)
    requires TapBounded(t)
    ensures var r := Iq(t.im, (-(t.re as int)) as int16);
            RotatedRe(s, r) == RotatedIm(s, t) && RotatedIm(s, r) == -RotatedRe(s, t)
  {
  }

  // ---- It is reached, and every size below it as well ----

  function Extreme(c: int): int16 {
    if c >= 0 then 0x7fff else -0x8000
  }

  /** The window of extreme samples, silent from sample `k` on. */
  function ExtremeWindow(t: seq<Iq>, k: nat): (w: seq<Iq>)
    ensures |w| == |t|
  {
    seq(|t|, i requires 0 <= i < |t| =>
      if i < k then Iq(Extreme(t[i].re as int), Extreme(-(t[i].im as int))) else IQ_ZERO)
  }

  lemma {:induction false} ExtremeIsReached(t: seq<Iq>, k: nat, n: nat)
    requires k <= |t| && n <= |t|
    ensures DotRe(ExtremeWindow(t, k), t, n) == Largest(t, if n < k then n else k)
  {
    if n == 0 {
    } else {
      ExtremeIsReached(t, k, n - 1);
      ExtremeTerm(t[n - 1]);
    }
  }

  lemma ExtremeTerm(t: Iq)
    ensures RotatedRe(Iq(Extreme(t.re as int), Extreme(-(t.im as int))), t) == Top(t.re as int) + Top(-(t.im as int))
    ensures RotatedRe(IQ_ZERO, t) == 0
  {
  }

  /** Growing tap by tap, the largest sums do not jump over a whole term. */
  lemma {:induction false} Crossing(t: seq<Iq>, n: nat, bound: nat) returns (k: nat)
    requires TapsBounded(t) && n <= |t| && 0 < bound <= Largest(t, n)
    ensures k <= n && bound <= Largest(t, k) < bound + TERM_MAX
  {
    if Largest(t, n - 1) >= bound {
      k := Crossing(t, n - 1, bound);
    } else {
      k := n;
    }
  }

  lemma BeyondWraps(dot: int)
    requires LIMIT <= dot < LIMIT + TERM_MAX || -LIMIT - TERM_MAX <= dot < -LIMIT
    ensures Accumulate(dot) != Clamp16(Shift15(dot))
  {
  }

  lemma WithinIsExact(dot: int)
    requires -LIMIT <= dot < LIMIT
    ensures Accumulate(dot) == Clamp16(Shift15(dot))
  {
  }

  /** The real parts in the four directions are those of the taps themselves, up to order and sign. */
  lemma Directions(w: seq<Iq>, t: seq<Iq>)
    requires |w| == |t| && TapsBounded(t)
    ensures var n := |t|;
            && DotRe(w, Turned(t), n) == DotIm(w, t, n)
            && DotRe(w, Turned(Turned(t)), n) == -DotRe(w, t, n)
            && DotRe(w, Turned(Turned(Turned(t))), n) == -DotIm(w, t, n)
  {
    TurnedDot(w, t, |t|);
    TurnedDot(w, Turned(t), |t|);
    TurnedDot(w, Turned(Turned(t)), |t|);
  }

  /** Some window of taps `d`, a turned version of others, has a real part just beyond the bound. */
  lemma WindowBeyond(d: seq<Iq>, bound: nat) returns (w: seq<Iq>)
    requires TapsBounded(d) && 0 < bound <= Largest(d, |d|)
    ensures |w| == |d| && bound <= DotRe(w, d, |d|) < bound + TERM_MAX
  {
    var k := Crossing(d, |d|, bound);
    w := ExtremeWindow(d, k);
    ExtremeIsReached(d, k, |d|);
  }

  lemma FittingIsExact(w: seq<Iq>, t: seq<Iq>)
    requires |w| == |t| && TapsBounded(t) && SumsFit(t)
    ensures AccumulationExact(w, t)
  {
    var n := |t|;
    Directions(w, t);
    LargestIsLargest(w, t, n);
    LargestIsLargest(w, Turned(t), n);
    LargestIsLargest(w, Turned(Turned(t)), n);
    LargestIsLargest(w, Turned(Turned(Turned(t))), n);
    WithinIsExact(DotRe(w, t, n));
    WithinIsExact(DotIm(w, t, n));
  }

  lemma OthersWrap(t: seq<Iq>) returns (w: seq<Iq>)
    requires TapsBounded(t) && !SumsFit(t)
    ensures |w| == |t| && !AccumulationExact(w, t)
  {
    var n := |t|;
    if Largest(t, n) >= LIMIT {
      w := WindowBeyond(t, LIMIT);
      BeyondWraps(DotRe(w, t, n));
    } else if Largest(Turned(t), n) >= LIMIT {
      w := WindowBeyond(Turned(t), LIMIT);
      Directions(w, t);
      BeyondWraps(DotIm(w, t, n));
    } else if Largest(Turned(Turned(t)), n) > LIMIT {
      w := WindowBeyond(Turned(Turned(t)), LIMIT + 1);
      Directions(w, t);
      BeyondWraps(DotRe(w, t, n));
    } else {
      w := WindowBeyond(Turned(Turned(Turned(t))), LIMIT + 1);
      Directions(w, t);
      BeyondWraps(DotIm(w, t, n));
    }
  }

  /**
   For every filter: all windows of samples give the clamp of floor(dot / 2^15) exactly when the
   largest and smallest sums that its taps allow fit.
   */
  lemma SaturatingAccumulation(t: seq<Iq>)
    requires TapsBounded(t)
    ensures AlwaysExact(t) <==> SumsFit(t)
  {
    if SumsFit(t) {
      forall w: seq<Iq> | |w| == |t|
        ensures AccumulationExact(w, t)
      {
        FittingIsExact(w, t);
      }
    } else {
      var w := OthersWrap(t);
      assert !AccumulationExact(w, t);
    }
  }

  // ---- Filters as they are created ----

  /** Any bounded taps do up to 32769 of them. */
  lemma ShortFiltersExact(t: seq<Iq>)
    requires TapsBounded(t) && |t| <= 32769
    ensures AlwaysExact(t)
  {
    forall w: seq<Iq> | |w| == |t|
      ensures AccumulationExact(w, t)
    {
      DotBound(w, t, |t|);
      WithinIsExact(DotRe(w, t, |t|));
      WithinIsExact(DotIm(w, t, |t|));
    }
  }

  function Abs(x: int): nat {
    if x < 0 then -x else x
  }

  /** Components of a tap inside the circle of radius 2^15 add up to at most this. */
  const DIAGONAL: nat := 46340

  predicate InDiagonal(t: seq<Iq>) {
    forall i :: 0 <= i < |t| ==> Abs(t[i].re as int) + Abs(t[i].im as int) <= DIAGONAL
  }

  lemma {:induction false} DiagonalBound(t: seq<Iq>, n: nat)
    requires n <= |t| && InDiagonal(t)
    ensures Largest(t, n) <= n * (0x8000 * DIAGONAL)
  {
    if n == 0 {
    } else {
      DiagonalBound(t, n - 1);
    }
  }

  lemma SquareOfAbs(x: int)
    ensures Abs(x) * Abs(x) == x * x
  {
  }

  lemma Parallelogram(p: int, q: int)
    ensures (p + q) * (p + q) <= 2 * (p * p + q * q)
  {
    assert (p - q) * (p - q) >= 0;
    assert (p + q) * (p + q) + (p - q) * (p - q) == 2 * (p * p + q * q);
  }

  lemma RootOfTwice(s: nat)
    requires s * s <= 0x8000_0000
    ensures s <= DIAGONAL
  {
    if s > DIAGONAL {
      SquareMonotone(DIAGONAL + 1, s);
    }
  }

  lemma CircleInDiagonal(a: int, b: int)
    requires a * a + b * b <= 0x4000_0000
    ensures Abs(a) + Abs(b) <= DIAGONAL
  {
    SquareOfAbs(a);
    SquareOfAbs(b);
    Parallelogram(Abs(a), Abs(b));
    RootOfTwice(Abs(a) + Abs(b));
  }

  /** A tap of magnitude below one stays inside the circle when it is rotated and cut off. */
  lemma CreatedInDiagonal(h: real, u: Complex)
    requires -1.0 < h < 1.0 && IsUnit(u)
    requires var c := Scale(h, u); -1.0 < c.re < 1.0 && -1.0 < c.im < 1.0
    ensures var q := QuantizeTap(Scale(h, u));
            Abs(q.re as int) + Abs(q.im as int) <= DIAGONAL
  {
    var c := Scale(h, u);
    ScaledInCircle(h, u.re, u.im);
    CutOffInCircle(c.re * 32768.0, c.im * 32768.0, 0x8000);
    CircleInDiagonal(Truncate(c.re * 32768.0), Truncate(c.im * 32768.0));
  }

  lemma ScaledInCircle(h: real, u: real, v: real)
    requires -1.0 < h < 1.0 && u * u + v * v == 1.0
    ensures var x, y := h * u * 32768.0, h * v * 32768.0;
            x * x + y * y <= 32768.0 * 32768.0
  {
    var k := h * 32768.0;
    OnCircle(u, v, k);
    if h >= 0.0 {
      SquareGrows(k, 32768.0);
    } else {
      SquareGrows(-k, 32768.0);
      NegatedSquare(k);
    }
    assert h * u * 32768.0 == u * k && h * v * 32768.0 == v * k;
  }

  /** Every filter that is created from taps of magnitude below one, for up to 46340 of them. */
  lemma CreatedFiltersExact(taps: seq<real>, z: Complex)
    requires IsUnit(z) && |taps| <= DIAGONAL && forall i :: 0 <= i < |taps| ==> -1.0 < taps[i] < 1.0
    ensures InUnitSquare(Swapped(BandPass(taps, z)))
    ensures AlwaysExact(QuantizeTaps(Swapped(BandPass(taps, z))))
  {
    PreparedTapsBelowOne(taps, z);
    var b := Swapped(BandPass(taps, z));
    var t := QuantizeTaps(b);
    QuantizedTapsBounded(b);
    forall i | 0 <= i < |t|
      ensures Abs(t[i].re as int) + Abs(t[i].im as int) <= DIAGONAL
    {
      var j :| 0 <= j < |taps| && b[i] == Scale(taps[j], Pow(z, j));
      UnitPow(z, j);
      CreatedInDiagonal(taps[j], Pow(z, j));
    }
    DiagonalFits(t);
    SaturatingAccumulation(t);
  }

  lemma DiagonalFits(t: seq<Iq>)
    requires TapsBounded(t) && InDiagonal(t) && |t| <= DIAGONAL
    ensures SumsFit(t)
  {
    var n := |t|;
    DiagonalBound(t, n);
    DiagonalBound(Turned(t), n);
    DiagonalBound(Turned(Turned(t)), n);
    DiagonalBound(Turned(Turned(Turned(t))), n);
  }

  /** The largest value below one that Q15 represents. */
  const FULL_SCALE: real := 32767.0 / 32768.0

  lemma {:induction false} PowOfUnchanged(u: Complex, n: nat)
    requires Mul(u, u) == u && Mul(ONE, u) == u
    ensures Pow(u, n) == if n == 0 then ONE else u
  {
    if n == 0 {
    } else {
      PowOfUnchanged(u, n - 1);
    }
  }

  lemma PowOfOne(n: nat)
    ensures Pow(ONE, n) == ONE
  {
    MulOne(ONE);
    PowOfUnchanged(ONE, n);
  }

  lemma {:induction false} UniformLargest(t: seq<Iq>, c: Iq, n: nat)
    requires n <= |t| && forall i :: 0 <= i < |t| ==> t[i] == c
    ensures Largest(t, n) == n * (Top(c.re as int) + Top(-(c.im as int)))
  {
    if n == 0 {
    } else {
      UniformLargest(t, c, n - 1);
    }
  }

  lemma QuantizedFullScale()
    ensures QuantizeTap(Scale(FULL_SCALE, ONE)) == Iq(0x7fff, 0)
  {
    assert FULL_SCALE * 32768.0 == 32767.0;
  }

  /**
   The filter of `n` full-scale taps at zero offset, as it is created, is exact up to 65538 taps; with
   one more, samples of -32768 already turn the smallest value into the largest.
   */
  lemma FullScaleFilter(n: nat)
    ensures var b := Swapped(BandPass(seq(n, _ => FULL_SCALE), ONE));
            && InUnitSquare(b)
            && (AlwaysExact(QuantizeTaps(b)) <==> n <= 65538)
  {
    var taps := seq(n, _ => FULL_SCALE);
    var b := Swapped(BandPass(taps, ONE));
    forall i | 0 <= i < |b|
      ensures b[i] == Scale(FULL_SCALE, ONE)
    {
      var j :| 0 <= j < n && b[i] == Scale(taps[j], Pow(ONE, j));
      PowOfOne(j);
    }
    var t := QuantizeTaps(b);
    QuantizedTapsBounded(b);
    QuantizedFullScale();
    UniformFits(t);
    SaturatingAccumulation(t);
  }

  lemma UniformFits(t: seq<Iq>)
    requires forall i :: 0 <= i < |t| ==> t[i] == Iq(0x7fff, 0)
    ensures TapsBounded(t) && (SumsFit(t) <==> |t| <= 65538)
  {
    var n := |t|;
    UniformLargest(t, Iq(0x7fff, 0), n);
    UniformLargest(Turned(t), Iq(0, -0x7fff), n);
    UniformLargest(Turned(Turned(t)), Iq(-0x7fff, 0), n);
    UniformLargest(Turned(Turned(Turned(t))), Iq(0, 0x7fff), n);
  }
}
