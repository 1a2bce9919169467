/**
 Design of the low-pass taps: windowed sine ratios, normalised so that they sum to the gain. The
 values of sine and cosine are parameters; only their symmetry matters.
 */
module LowPassDesign {
  import opened Arithmetic
  import opened ComplexNumbers
  import opened DownConversion

  /** `sanity_check_1f`: rate, cutoff and transition width are positive, the cutoff is at most half the rate. */
  function SanityCheck(samplingFreq: nat, cutoffFreq: nat, transitionWidth: nat): int {
    if samplingFreq == 0 then -1
    else if cutoffFreq == 0 || cutoffFreq as real > samplingFreq as real / 2.0 then -1
    else if transitionWidth == 0 then -1
    else 0
  }

  lemma SanityCheckIs(samplingFreq: nat, cutoffFreq: nat, transitionWidth: nat)
    ensures SanityCheck(samplingFreq, cutoffFreq, transitionWidth) == 0
            <==> samplingFreq > 0 && 0 < cutoffFreq && 2 * cutoffFreq <= samplingFreq && transitionWidth > 0
  {
  }

  /** `computeNtaps`: floor(53 * fs / (22 * width)), made odd. */
  function ComputeNtaps(samplingFreq: nat, transitionWidth: nat): nat
    requires transitionWidth > 0
  {
    var ntaps := FloorDiv(53 * samplingFreq, 22 * transitionWidth);
    if ntaps % 2 == 0 then ntaps + 1 else ntaps
  }

  /**
   The tap count in numbers: odd, and the only odd one whose neighbours 53 * fs / (22 * width) lies
   between. So it is that quotient rounded down, and one more if that is even.
   */
  ghost predicate IsTapCount(n: int, samplingFreq: nat, transitionWidth: nat) {
    && n % 2 == 1 && n > 0
    && 22 * transitionWidth * (n - 1) <= 53 * samplingFreq < 22 * transitionWidth * (n + 1)
  }

  /** A number lies between two multiples exactly if they are not on the same side of its quotient. */
  lemma BetweenMultiples(num: int, den: int, q: int, low: int, high: int)
    requires den > 0 && den * q <= num < den * (q + 1)
    ensures den * low <= num < den * high <==> low <= q < high
  {
    if low <= q {
      MulMonotone(low, q, den);
    } else {
      MulMonotone(q + 1, low, den);
    }
    if high <= q {
      MulMonotone(high, q, den);
    } else {
      MulMonotone(q + 1, high, den);
    }
  }

  lemma NtapsIsTapCount(samplingFreq: nat, transitionWidth: nat, n: nat)
    requires transitionWidth > 0
    ensures IsTapCount(n, samplingFreq, transitionWidth) <==> n == ComputeNtaps(samplingFreq, transitionWidth)
  {
    var num, den := 53 * samplingFreq, 22 * transitionWidth;
    QuotientBetween(num, den);
    BetweenMultiples(num, den, FloorDiv(num, den), n - 1, n + 1);
    hide FloorDiv;
  }

  lemma QuotientBetween(num: nat, den: nat)
    requires den > 0
    ensures den * FloorDiv(num, den) <= num < den * (FloorDiv(num, den) + 1)
  {
    var q := num / den;
    assert num == q * den + num % den;
  }

  /** A transition no wider than the client's rate gives at least two taps per decimated sample. */
  lemma NtapsEnough(decimation: nat, samplingRate: nat, transitionWidth: nat, cutoffRate: nat)
    requires cutoffRate > 0 && transitionWidth == FloorDiv(samplingRate, cutoffRate) && transitionWidth > 0
    ensures var n := ComputeNtaps(decimation * samplingRate, transitionWidth);
            n % 2 == 1 && n >= 2 * decimation
  {
    var den, num := 22 * transitionWidth, 53 * (decimation * samplingRate);
    assert transitionWidth <= samplingRate by {
      QuotientAtMost(samplingRate, cutoffRate);
    }
    MulMonotone(transitionWidth, samplingRate, 2 * decimation);
    assert 2 * decimation * den <= num;
    QuotientAtLeast(num, den, 2 * decimation);
  }

  /** `create_hamming_window`; `cosine(n)` stands for cos(2 * pi * n / (ntaps - 1)). */
  method CreateHammingWindow(ntaps: nat, cosine: int -> real) returns (w: array<real>)
    ensures fresh(w) && w[..] == Hamming(ntaps, cosine)
  {
    w := new real[ntaps];
    for n := 0 to ntaps
      invariant forall k :: 0 <= k < n ==> w[k] == 0.54 - 0.46 * cosine(k)
    {
      w[n] := 0.54 - 0.46 * cosine(n);
    }
  }

  function Hamming(ntaps: nat, cosine: int -> real): (w: seq<real>)
    ensures |w| == ntaps
  {
    seq(ntaps, n => 0.54 - 0.46 * cosine(n))
  }

  /**
   The shape of the window: 0.08 where the cosine is 1, 1 where it is -1, and in between falling in
   proportion as the cosine rises.
   */
  lemma HammingShape(ntaps: nat, cosine: int -> real, i: nat, j: nat)
    requires i < ntaps && j < ntaps
    ensures var w := Hamming(ntaps, cosine);
            && (cosine(i) == 1.0 ==> w[i] == 0.08) && (cosine(i) == -1.0 ==> w[i] == 1.0)
            && (-1.0 <= cosine(i) <= 1.0 ==> 0.08 <= w[i] <= 1.0)
            && (cosine(i) < cosine(j) <==> w[i] > w[j])
            && 2.0 * (w[i] - w[j]) == 0.92 * (cosine(j) - cosine(i))
  {
  }

  /** For a cosine that is 1 at both ends and -1 in the middle the window is largest in the middle. */
  lemma HammingPeak(ntaps: nat, cosine: int -> real, i: nat)
    requires i < ntaps && ntaps % 2 == 1 && forall n :: 0 <= n < ntaps ==> -1.0 <= cosine(n) <= 1.0
    requires cosine(0) == 1.0 && cosine(ntaps - 1) == 1.0 && cosine((ntaps - 1) / 2) == -1.0
    ensures var w := Hamming(ntaps, cosine);
            w[0] == 0.08 == w[ntaps - 1] && w[(ntaps - 1) / 2] == 1.0 && w[0] <= w[i] <= w[(ntaps - 1) / 2]
  {
  }

  /**
   A tap before normalisation; `ratio(n)` stands for sin(n * fwT0) / (n * pi), with fwT0 / pi at
   n = 0.
   */
  function DesignedTap(ntaps: nat, ratio: int -> real, cosine: int -> real, i: nat): real
    requires i < ntaps
  {
    ratio(i - (ntaps - 1) / 2) * Hamming(ntaps, cosine)[i]
  }

  function Designed(ntaps: nat, ratio: int -> real, cosine: int -> real): (t: seq<real>)
    ensures |t| == ntaps
  {
    seq(ntaps, i requires 0 <= i < ntaps => DesignedTap(ntaps, ratio, cosine, i))
  }

  /** Each tap is the sine ratio at its distance from the centre, weighted by a window of that shape. */
  lemma DesignedShape(ntaps: nat, ratio: int -> real, cosine: int -> real, i: nat)
    requires i < ntaps && ntaps % 2 == 1
    ensures var t, r := Designed(ntaps, ratio, cosine), ratio(i - ntaps / 2);
            && (cosine(i) == 1.0 ==> t[i] == 0.08 * r) && (cosine(i) == -1.0 ==> t[i] == r)
            && 2.0 * t[i] == (1.08 - 0.92 * cosine(i)) * r
  {
  }

  /** sin(-x) / (-x) is sin(x) / x, and the cosine of the window mirrors around its middle. */
  ghost predicate Symmetric(ntaps: nat, ratio: int -> real, cosine: int -> real) {
    && (forall n, k :: n + k == 0 ==> ratio(n) == ratio(k))
    && (forall n, k :: 0 <= n && 0 <= k && n + k == ntaps - 1 ==> cosine(n) == cosine(k))
  }

  /** What the normalisation loop adds up: the centre tap and twice the first `n` taps right of it. */
  function OneSided(t: seq<real>, n: nat): real
    requires |t| % 2 == 1 && n <= (|t| - 1) / 2
  {
    var m := (|t| - 1) / 2;
    if n == 0 then t[m] else OneSided(t, n - 1) + 2.0 * t[n + m]
  }

  function Scaled(t: seq<real>, factor: real): (s: seq<real>)
    ensures |s| == |t|
  {
    seq(|t|, i requires 0 <= i < |t| => t[i] * factor)
  }

  lemma DesignedIsSymmetric(ntaps: nat, ratio: int -> real, cosine: int -> real, i: nat)
    requires ntaps % 2 == 1 && i < ntaps && Symmetric(ntaps, ratio, cosine)
    ensures DesignedTap(ntaps, ratio, cosine, i) == DesignedTap(ntaps, ratio, cosine, ntaps - 1 - i)
  {
    var m, j := (ntaps - 1) / 2, ntaps - 1 - i;
    var w := Hamming(ntaps, cosine);
    assert ratio(i - m) == ratio(j - m);
    assert w[i] == w[j] by {
      assert cosine(i) == cosine(j);
    }
  }

  /** Sum of the taps within `n` places of the centre. */
  lemma {:induction false} OneSidedIsMiddleSum(t: seq<real>, n: nat)
    requires |t| % 2 == 1 && n <= (|t| - 1) / 2
    requires Mirrored(t)
    ensures var m := (|t| - 1) / 2;
            OneSided(t, n) == Sum(t, m - n) - Sum(t, m + n + 1)
  {
    var m := (|t| - 1) / 2;
    if n == 0 {
      assert Sum(t, m) == t[m] + Sum(t, m + 1);
    } else {
      OneSidedIsMiddleSum(t, n - 1);
      assert Sum(t, m - n) == t[m - n] + Sum(t, m - n + 1);
      assert Sum(t, m + n) == t[m + n] + Sum(t, m + n + 1);
      assert t[m - n] == t[m + n];
    }
  }

  /** Adding up one side of mirrored taps twice gives the whole sum. */
  lemma OneSidedIsSum(t: seq<real>)
    requires |t| % 2 == 1 && Mirrored(t)
    ensures OneSided(t, (|t| - 1) / 2) == Sum(t, 0)
  {
    OneSidedIsMiddleSum(t, (|t| - 1) / 2);
    assert Sum(t, |t|) == 0.0;
  }

  lemma {:induction false} SumScaled(t: seq<real>, factor: real, from: nat)
    requires from <= |t|
    ensures Sum(Scaled(t, factor), from) == Sum(t, from) * factor
    decreases |t| - from
  {
    if from == |t| {
    } else {
      SumScaled(t, factor, from + 1);
      assert (t[from] + Sum(t, from + 1)) * factor == t[from] * factor + Sum(t, from + 1) * factor;
    }
  }

  ghost predicate Mirrored(t: seq<real>) {
    forall i, j :: 0 <= i < |t| && 0 <= j < |t| && i + j == |t| - 1 ==> t[i] == t[j]
  }

  lemma DesignedIsMirrored(ntaps: nat, ratio: int -> real, cosine: int -> real)
    requires ntaps % 2 == 1 && Symmetric(ntaps, ratio, cosine)
    ensures Mirrored(Designed(ntaps, ratio, cosine))
  {
    var t := Designed(ntaps, ratio, cosine);
    forall i, j | 0 <= i < |t| && 0 <= j < |t| && i + j == |t| - 1
      ensures t[i] == t[j]
    {
      DesignedIsSymmetric(ntaps, ratio, cosine, i);
    }
  }

  lemma ScaledIsMirrored(t: seq<real>, factor: real)
    requires Mirrored(t)
    ensures Mirrored(Scaled(t, factor))
  {
  }

  method DesignTaps(ntaps: nat, ratio: int -> real, cosine: int -> real) returns (taps: array<real>)
    requires ntaps % 2 == 1
    ensures fresh(taps) && taps[..] == Designed(ntaps, ratio, cosine)
  {
    taps := new real[ntaps];
    var w := CreateHammingWindow(ntaps, cosine);
    var m := (ntaps - 1) / 2;
    ghost var window := Hamming(ntaps, cosine);
    for n := -m to m + 1
      invariant w[..] == window
      invariant forall k :: 0 <= k < n + m ==> taps[k] == DesignedTap(ntaps, ratio, cosine, k)
    {
      assert w[n + m] == window[n + m];
      taps[n + m] := ratio(n) * w[n + m];
    }
  }

  /** The sum the normalisation divides by, read off the right half of the taps. */
  method AddOneSide(taps: array<real>) returns (fmax: real)
    requires taps.Length % 2 == 1
    ensures fmax == OneSided(taps[..], (taps.Length - 1) / 2)
  {
    var m := (taps.Length - 1) / 2;
    fmax := taps[0 + m];
    for n := 1 to m + 1
      invariant fmax == OneSided(taps[..], n - 1)
    {
      fmax := fmax + 2.0 * taps[n + m];
    }
  }

  method ScaleInPlace(taps: array<real>, factor: real)
    modifies taps
    ensures taps[..] == Scaled(old(taps[..]), factor)
  {
    ghost var scaled := Scaled(taps[..], factor);
    for i := 0 to taps.Length
      invariant forall k :: 0 <= k < i ==> taps[k] == scaled[k]
      invariant forall k :: i <= k < taps.Length ==> taps[k] == old(taps[k])
    {
      taps[i] := taps[i] * factor;
    }
  }

  function Quotient(gain: real, s: real): (q: real)
    requires s != 0.0
    ensures s * q == gain
  {
    gain / s
  }

  lemma NormalizedSum(t: seq<real>, gain: real)
    requires Sum(t, 0) != 0.0
    ensures Sum(Scaled(t, Quotient(gain, Sum(t, 0))), 0) == gain
  {
    SumScaled(t, Quotient(gain, Sum(t, 0)), 0);
  }

  /** Normalising changes no proportion between the taps. */
  lemma NormalizedTap(gain: real, ntaps: nat, ratio: int -> real, cosine: int -> real, i: nat)
    requires i < ntaps && Sum(Designed(ntaps, ratio, cosine), 0) != 0.0
    ensures var t := Designed(ntaps, ratio, cosine);
            LowPassTaps(gain, ntaps, ratio, cosine)[i] * Sum(t, 0) == gain * t[i]
  {
    var t := Designed(ntaps, ratio, cosine);
    var s, q := Sum(t, 0), Quotient(gain, Sum(t, 0));
    assert (t[i] * q) * s == t[i] * (s * q);
  }

  /** The values of sine and cosine are symmetric and the taps do not cancel out. */
  ghost predicate SoundDesign(ntaps: nat, ratio: int -> real, cosine: int -> real) {
    Symmetric(ntaps, ratio, cosine) && Sum(Designed(ntaps, ratio, cosine), 0) != 0.0
  }

  /** The designed taps, normalised. */
  function LowPassTaps(gain: real, ntaps: nat, ratio: int -> real, cosine: int -> real): (h: seq<real>)
    requires Sum(Designed(ntaps, ratio, cosine), 0) != 0.0
    ensures |h| == ntaps && Sum(h, 0) == gain
  {
    var t := Designed(ntaps, ratio, cosine);
    NormalizedSum(t, gain);
    Scaled(t, Quotient(gain, Sum(t, 0)))
  }

  /**
   `create_low_pass_filter` after its checks. The loop adds only one side, which is the full sum
   because the taps are symmetric; so the normalised taps sum to the gain.
   */
  method CreateLowPassTaps(gain: real, ntaps: nat, ratio: int -> real, cosine: int -> real) returns (taps: array<real>)
    requires ntaps % 2 == 1 && SoundDesign(ntaps, ratio, cosine)
    ensures fresh(taps) && taps[..] == LowPassTaps(gain, ntaps, ratio, cosine) && Mirrored(taps[..])
  {
    taps := DesignTaps(ntaps, ratio, cosine);
    ghost var t := taps[..];
    DesignedIsMirrored(ntaps, ratio, cosine);
    OneSidedIsSum(t);
    var fmax := AddOneSide(taps);
    var factor := Quotient(gain, fmax);
    ScaleInPlace(taps, factor);
    ScaledIsMirrored(t, factor);
  }

  /**
   `create_low_pass_filter`: the checks, then the design. `ratio(cutoff, rate)` and `cosine(ntaps)`
   are the functions `ratio` and `cosine` above for that cutoff, rate and number of taps.
   */
  method CreateLowPassFilter(gain: real, samplingFreq: nat, cutoffFreq: nat, transitionWidth: nat,
                             ratio: (nat, nat) -> int -> real, cosine: nat -> int -> real)
    returns (code: int, taps: array?<real>)
    requires transitionWidth > 0 ==>
               var ntaps := ComputeNtaps(samplingFreq, transitionWidth);
               SoundDesign(ntaps, ratio(cutoffFreq, samplingFreq), cosine(ntaps))
    ensures code == SanityCheck(samplingFreq, cutoffFreq, transitionWidth)
    ensures taps == null <==> code != 0
    ensures taps != null ==>
              && fresh(taps) && transitionWidth > 0 && Mirrored(taps[..])
              && var ntaps := ComputeNtaps(samplingFreq, transitionWidth);
              taps[..] == LowPassTaps(gain, ntaps, ratio(cutoffFreq, samplingFreq), cosine(ntaps))
  {
    code := SanityCheck(samplingFreq, cutoffFreq, transitionWidth);
    if code != 0 {
      return code, null;
    }
    var ntaps := ComputeNtaps(samplingFreq, transitionWidth);
    taps := CreateLowPassTaps(gain, ntaps, ratio(cutoffFreq, samplingFreq), cosine(ntaps));
  }

  /**
   Unity gain end to end: with the designed taps a constant signal at zero offset comes out `gain`
   times as large, once the initial silence has left the window.
   */
  lemma ConstantComesOutScaled(gain: real, ntaps: nat, ratio: int -> real, cosine: int -> real,
                               c: Complex, x: seq<Complex>, z: Complex, decimation: nat, k: nat)
    requires ZeroOffset(z)
    requires ntaps % 2 == 1 && 0 < decimation <= ntaps
    requires Sum(Designed(ntaps, ratio, cosine), 0) != 0.0
    requires forall m :: 0 <= m < |x| ==> x[m] == c
    requires k < CeilDiv(|x|, decimation) && k * decimation >= ntaps - 1
    ensures var h := LowPassTaps(gain, ntaps, ratio, cosine);
            var out := Filtered(x, h, z, decimation);
            k < |out| && out[k] == Scale(gain, c)
  {
    ConstantIsScaled(c, x, LowPassTaps(gain, ntaps, ratio, cosine), z, decimation, k);
  }
}
