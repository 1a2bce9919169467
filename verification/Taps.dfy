/**
 Preparation of the filter taps: moving the low-pass taps up to the centre frequency, reversing
 them in place, quantising them to Q15 and copying them at every alignment.
 */
module Taps {
  import opened Arithmetic
  import opened ComplexNumbers
  import opened DotProducts
  import opened FixedPoint
  import opened MachineInts

  /** The low-pass taps rotated to the centre frequency: taps[i] * z^i. */
  function BandPass(taps: seq<real>, z: Complex): (b: seq<Complex>)
    ensures |b| == |taps|
  {
    seq(|taps|, i requires 0 <= i < |taps| => Scale(taps[i], Pow(z, i)))
  }

  function Reversed<T>(s: seq<T>): (r: seq<T>)
    ensures |r| == |s|
  {
    seq(|s|, i requires 0 <= i < |s| => s[|s| - 1 - i])
  }

  /**
   What the swap loop really leaves: the loop runs to the middle index inclusively, so for an even
   length it swaps the middle pair a second time.
   */
  function Swapped<T>(s: seq<T>): (r: seq<T>)
    ensures |r| == |s|
  {
    seq(|s|, i requires 0 <= i < |s| =>
      if |s| % 2 == 0 && (i == |s| / 2 || i == |s| / 2 - 1) then s[i] else s[|s| - 1 - i])
  }

  method SwapInPlace<T>(b: array<T>)
    requires b.Length > 0
    modifies b
    ensures b[..] == Swapped(old(b[..]))
  {
    var n := b.Length;
    var i := 0;
    while i <= n / 2
      invariant 0 <= i <= n / 2 + 1
      invariant i <= n / 2 ==> forall k :: 0 <= k < i ==> b[k] == old(b[n - 1 - k]) && b[n - 1 - k] == old(b[k])
      invariant i <= n / 2 ==> forall k :: i <= k < n - i ==> b[k] == old(b[k])
      invariant i == n / 2 + 1 ==> b[..] == Swapped(old(b[..]))
    {
      var tmp := b[n - 1 - i];
      b[n - 1 - i] := b[i];
      b[i] := tmp;
      i := i + 1;
    }
  }

  /** The taps come out reversed exactly for an odd count, or when the middle pair is equal anyway. */
  lemma SwappedIsReversed<T>(s: seq<T>)
    ensures Swapped(s) == Reversed(s) <==> |s| % 2 == 1 || |s| == 0 || s[|s| / 2 - 1] == s[|s| / 2]
  {
    if |s| % 2 == 0 && |s| > 0 {
      var m := |s| / 2;
      assert Swapped(s)[m] == s[m] && Reversed(s)[m] == s[m - 1];
    }
    if |s| % 2 == 1 || |s| == 0 || s[|s| / 2 - 1] == s[|s| / 2] {
      assert forall i :: 0 <= i < |s| ==> Swapped(s)[i] == Reversed(s)[i];
    }
  }

  /** Rotation and reversal as one call; the new array is handed over as a value. */
  method PrepareTaps(taps: seq<real>, z: Complex) returns (prepared: seq<Complex>)
    requires |taps| > 0
    ensures prepared == Swapped(BandPass(taps, z))
  {
    var bpfTaps := new Complex[|taps|];
    for i := 0 to |taps|
      invariant forall k :: 0 <= k < i ==> bpfTaps[k] == Scale(taps[k], Pow(z, k))
    {
      bpfTaps[i] := Scale(taps[i], Pow(z, i));
    }
    assert bpfTaps[..] == BandPass(taps, z);
    SwapInPlace(bpfTaps);
    prepared := bpfTaps[..];
  }

  // ---- Aligned copies ----

  /** The copy for `shift`: leading zeros, the taps, trailing zeros up to the common length. */
  function AlignedCopy(taps: seq<Complex>, shift: nat, count: nat): (t: seq<Complex>)
    requires shift < count
    ensures |t| == |taps| + count - 1
  {
    Zeros(shift) + taps + Zeros(count - 1 - shift)
  }

  method CreateAlignedTaps(taps: seq<Complex>, count: nat) returns (copies: seq<seq<Complex>>)
    ensures |copies| == count
    ensures forall i :: 0 <= i < count ==> copies[i] == AlignedCopy(taps, i, count)
  {
    copies := [];
    for i := 0 to count
      invariant |copies| == i
      invariant forall k :: 0 <= k < i ==> copies[k] == AlignedCopy(taps, k, count)
    {
      var alignedTapsLen := |taps| + count - 1;
      var copy := new Complex[alignedTapsLen];
      for j := 0 to alignedTapsLen
        invariant forall k :: 0 <= k < j ==> copy[k] == ZERO
      {
        copy[j] := ZERO;
      }
      for j := 0 to |taps|
        invariant forall k :: 0 <= k < alignedTapsLen ==>
                    copy[k] == if i <= k < i + j then taps[k - i] else ZERO
      {
        copy[i + j] := taps[j];
      }
      assert copy[..] == AlignedCopy(taps, i, count);
      copies := copies + [copy[..]];
    }
  }

  /** An address rounded down to an alignment that is a power of two. */
  function RoundDown(address: nat, alignment: nat): nat
    requires 0 < alignment
  {
    address - address % alignment
  }

  /** Index of the chosen copy, in elements: how far the rounding moved the address. */
  function AlignIndex(base: nat, elementSize: nat, index: nat, alignment: nat): nat
    requires 0 < alignment && 0 < elementSize
  {
    (base + elementSize * index - RoundDown(base + elementSize * index, alignment)) / elementSize
  }

  /** cf32: eight-byte samples in a 32-byte aligned buffer need four copies. */
  lemma AlignIndexCf32(base: nat, index: nat)
    requires base % 32 == 0
    ensures AlignIndex(base, 8, index, 32) == index % 4 < 4
    ensures RoundDown(base + 8 * index, 32) == base + 8 * (index - index % 4)
  {
    var q, r := base / 32 + index / 4, index % 4;
    ModUnique(base + 8 * index, 32, q, 8 * r);
  }

  /** cs16: four-byte samples in a buffer aligned to 4 bytes never move, so only copy 0 is used. */
  lemma AlignIndexCs16(base: nat, index: nat)
    requires base % 4 == 0
    ensures AlignIndex(base, 2, 2 * index, 4) == 0
    ensures RoundDown(base + 2 * (2 * index), 4) == base + 2 * (2 * index)
  {
  }

  /**
   The dot product from the rounded-down address with the matching copy, over taps + shift terms,
   is the dot product of the window itself with the taps.
   */
  lemma AlignedDot(w: seq<Complex>, taps: seq<Complex>, shift: nat, count: nat)
    requires shift < count && |w| == shift + |taps|
    ensures |AlignedCopy(taps, shift, count)| >= shift + |taps|
    ensures Dot(w, AlignedCopy(taps, shift, count), shift + |taps|) == Dot(w[shift..], taps, |taps|)
  {
    DotShifted(w, taps, shift, |taps|);
    DotPrefix(w, AlignedCopy(taps, shift, count), w, Shifted(taps, shift), shift + |taps|);
  }

  // ---- Q15 quantisation ----

  /** Conversion of a float to an integer in C: towards zero. */
  function Truncate(x: real): int {
    if x >= 0.0 then x.Floor else -((-x).Floor)
  }

  /** A tap component scaled by 2^15 and cast to int16. */
  function Quantize(x: real): int16
    requires -1.0 < x < 1.0
  {
    Truncate(x * 32768.0) as int16
  }

  function QuantizeTap(t: Complex): Iq
    requires -1.0 < t.re < 1.0 && -1.0 < t.im < 1.0
  {
    Iq(Quantize(t.re), Quantize(t.im))
  }

  /** Quantising rounds towards zero, by less than one unit, and never produces -32768. */
  lemma QuantizeIsBounded(x: real)
    requires -1.0 < x < 1.0
    ensures -0x7fff <= Quantize(x) as int <= 0x7fff
    ensures x >= 0.0 ==> x * 32768.0 - 1.0 < Quantize(x) as int as real <= x * 32768.0
    ensures x <= 0.0 ==> x * 32768.0 <= Quantize(x) as int as real < x * 32768.0 + 1.0
  {
  }

  /** The Q15 taps as the code lays them out: interleaved, `shift` int16 places in, zeros elsewhere. */
  ghost predicate IsInterleavedCopy(copy: seq<int16>, taps: seq<Iq>, shift: nat) {
    && |copy| >= shift + 2 * |taps|
    && (forall j :: 0 <= j < |taps| ==> copy[shift + 2 * j] == taps[j].re && copy[shift + 2 * j + 1] == taps[j].im)
    && (forall k :: 0 <= k < shift || shift + 2 * |taps| <= k < |copy| ==> copy[k] == 0)
  }

  predicate InUnitSquare(taps: seq<Complex>) {
    forall i :: 0 <= i < |taps| ==> -1.0 < taps[i].re < 1.0 && -1.0 < taps[i].im < 1.0
  }

  lemma ScaledUnit(h: real, u: Complex)
    requires -1.0 < h < 1.0 && IsUnit(u)
    ensures -1.0 < Scale(h, u).re < 1.0 && -1.0 < Scale(h, u).im < 1.0
  {
    assert u.re * u.re >= 0.0 && u.im * u.im >= 0.0;
    assert -1.0 <= u.re <= 1.0 by { UnitInterval(u.re); }
    assert -1.0 <= u.im <= 1.0 by { UnitInterval(u.im); }
    ProductBelowOne(h, u.re);
    ProductBelowOne(h, u.im);
  }

  lemma UnitInterval(x: real)
    requires x * x <= 1.0
    ensures -1.0 <= x <= 1.0
  {
    if x > 1.0 {
      SquareAboveOne(x);
    } else if x < -1.0 {
      SquareAboveOne(-x);
    }
  }

  lemma SquareAboveOne(x: real)
    requires x > 1.0
    ensures x * x > 1.0
  {
    assert x * x > x * 1.0;
  }

  lemma ProductBelowOne(h: real, x: real)
    requires -1.0 < h < 1.0 && -1.0 <= x <= 1.0
    ensures -1.0 < h * x < 1.0
  {
    var a, b := if h < 0.0 then -h else h, if x < 0.0 then -x else x;
    assert 0.0 <= a * b <= a;
    assert h * x == a * b || h * x == -(a * b);
  }

  /** Moving taps of magnitude below one to another frequency keeps every component below one. */
  lemma PreparedTapsBelowOne(taps: seq<real>, z: Complex)
    requires IsUnit(z) && forall i :: 0 <= i < |taps| ==> -1.0 < taps[i] < 1.0
    ensures InUnitSquare(BandPass(taps, z)) && InUnitSquare(Swapped(BandPass(taps, z)))
  {
    forall i | 0 <= i < |taps|
      ensures -1.0 < BandPass(taps, z)[i].re < 1.0 && -1.0 < BandPass(taps, z)[i].im < 1.0
    {
      UnitPow(z, i);
      ScaledUnit(taps[i], Pow(z, i));
    }
  }

  lemma SwappedInUnitSquare(b: seq<Complex>)
    requires InUnitSquare(b)
    ensures InUnitSquare(Swapped(b))
  {
  }

  /** The truncated value has the same sign and is no larger in magnitude. */
  lemma TruncateShrinks(x: real)
    ensures x >= 0.0 ==> 0.0 <= Truncate(x) as real <= x
    ensures x <= 0.0 ==> x <= Truncate(x) as real <= 0.0
  {
  }

  lemma ProductNonNegative(a: real, b: real)
    requires a >= 0.0 && b >= 0.0
    ensures a * b >= 0.0
  {
  }

  lemma SquareGrows(a: real, b: real)
    requires 0.0 <= a <= b
    ensures a * a <= b * b
  {
    ProductNonNegative(b - a, b + a);
    assert (b - a) * (b + a) == b * b - a * a;
  }

  lemma NegatedSquare(a: real)
    ensures (-a) * (-a) == a * a
  {
  }

  lemma SquareShrinks(a: real, b: real)
    requires 0.0 <= a <= b || b <= a <= 0.0
    ensures a * a <= b * b
  {
    if b >= 0.0 {
      SquareGrows(a, b);
    } else {
      SquareGrows(-a, -b);
      NegatedSquare(a);
      NegatedSquare(b);
    }
  }

  /** The phase increment as int16: both components times 32767, cut off. */
  function QuantizeIncrement(p: Complex): Iq
    requires IsUnit(p)
  {
    IncrementFits(p.re, p.im);
    IncrementFits(p.im, p.re);
    Iq(Truncate(p.re * 32767.0) as int16, Truncate(p.im * 32767.0) as int16)
  }

  lemma IncrementFits(x: real, y: real)
    requires x * x + y * y == 1.0
    ensures -32767 <= Truncate(x * 32767.0) <= 32767
  {
    assert y * y >= 0.0;
    UnitInterval(x);
    TruncateShrinks(x * 32767.0);
  }

  /** Cutting off keeps the increment of a unit rotation within the oscillator's bound. */
  lemma QuantizedIncrementBounded(p: Complex)
    requires IsUnit(p)
    ensures IncrementBounded(QuantizeIncrement(p))
  {
    IncrementFits(p.re, p.im);
    IncrementFits(p.im, p.re);
    TruncatedInCircle(p.re, p.im, 32767);
  }

  lemma TruncatedInCircle(u: real, v: real, k: nat)
    requires u * u + v * v == 1.0
    ensures var a, b := Truncate(u * k as real), Truncate(v * k as real);
            a * a + b * b <= k * k
  {
    OnCircle(u, v, k as real);
    CutOffInCircle(u * k as real, v * k as real, k);
  }

  lemma CutOffInCircle(x: real, y: real, k: nat)
    requires x * x + y * y <= k as real * k as real
    ensures var a, b := Truncate(x), Truncate(y);
            a * a + b * b <= k * k
  {
    TruncateShrinks(x);
    TruncateShrinks(y);
    InCircle(Truncate(x), Truncate(y), x, y, k);
  }

  lemma OnCircle(u: real, v: real, k: real)
    requires u * u + v * v == 1.0
    ensures (u * k) * (u * k) + (v * k) * (v * k) == k * k
  {
    ScaledSquare(u, k);
    ScaledSquare(v, k);
    SumTimes(u * u, v * v, k * k);
  }

  lemma SumTimes(a: real, b: real, k: real)
    ensures a * k + b * k == (a + b) * k
  {
  }

  lemma InCircle(a: int, b: int, x: real, y: real, k: int)
    requires 0.0 <= a as real <= x || x <= a as real <= 0.0
    requires 0.0 <= b as real <= y || y <= b as real <= 0.0
    requires x * x + y * y <= k as real * k as real
    ensures a * a + b * b <= k * k
  {
    SquareShrinks(a as real, x);
    SquareShrinks(b as real, y);
    SquareAsReal(a);
    SquareAsReal(b);
    SquareAsReal(k);
  }

  /** The increment of the oscillator for `decimation` steps back by `z`. */
  function PhaseIncrement(z: Complex, decimation: nat): (incr: Iq)
    requires IsUnit(z)
    ensures IncrementBounded(incr)
  {
    UnitTimesConj(z);
    UnitPow(Conj(z), decimation);
    QuantizedIncrementBounded(Pow(Conj(z), decimation));
    QuantizeIncrement(Pow(Conj(z), decimation))
  }

  /** `n` is `x` cut off: an integer within one unit of it, on the side of zero. */
  predicate CutOff(n: int, x: real) {
    && (x >= 0.0 ==> 0.0 <= n as real && x - 1.0 < n as real <= x)
    && (x <= 0.0 ==> n as real <= 0.0 && x <= n as real < x + 1.0)
  }

  lemma TruncateCutsOff(x: real)
    ensures CutOff(Truncate(x), x)
  {
  }

  /** The increment is 32767 * z^-decimation with both components cut off. */
  lemma IncrementIsCutOff(z: Complex, decimation: nat)
    requires IsUnit(z)
    ensures var incr, u := PhaseIncrement(z, decimation), Pow(Conj(z), decimation);
            && IsUnit(u) && CutOff(incr.re as int, u.re * 32767.0) && CutOff(incr.im as int, u.im * 32767.0)
  {
    var u := Pow(Conj(z), decimation);
    UnitTimesConj(z);
    UnitPow(Conj(z), decimation);
    IncrementFits(u.re, u.im);
    IncrementFits(u.im, u.re);
    TruncateCutsOff(u.re * 32767.0);
    TruncateCutsOff(u.im * 32767.0);
  }

  /** A quantised tap is 32768 times the tap with both components cut off. */
  lemma TapIsCutOff(t: Complex)
    requires -1.0 < t.re < 1.0 && -1.0 < t.im < 1.0
    ensures CutOff(QuantizeTap(t).re as int, t.re * 32768.0) && CutOff(QuantizeTap(t).im as int, t.im * 32768.0)
  {
    TruncateCutsOff(t.re * 32768.0);
    TruncateCutsOff(t.im * 32768.0);
  }

  lemma ScaledSquare(x: real, k: real)
    ensures (x * k) * (x * k) == (x * x) * (k * k)
  {
    assert (x * k) * (x * k) == x * (k * (x * k));
  }

  lemma {:induction false} SquareAsReal(n: int)
    ensures (n as real) * (n as real) == (n * n) as real
    decreases if n < 0 then -n else n
  {
    if n == 0 {
    } else if n > 0 {
      SquareAsReal(n - 1);
    } else {
      SquareAsReal(n + 1);
    }
  }

  function QuantizeTaps(taps: seq<Complex>): (q: seq<Iq>)
    requires InUnitSquare(taps)
    ensures |q| == |taps|
  {
    seq(|taps|, i requires 0 <= i < |taps| => QuantizeTap(taps[i]))
  }

  lemma QuantizedTapsBounded(taps: seq<Complex>)
    requires InUnitSquare(taps)
    ensures TapsBounded(QuantizeTaps(taps))
  {
    forall i | 0 <= i < |taps|
      ensures TapBounded(QuantizeTap(taps[i]))
    {
      QuantizeIsBounded(taps[i].re);
      QuantizeIsBounded(taps[i].im);
    }
  }

  method InterleavedCopy(taps: seq<Complex>, shift: nat, len: nat) returns (values: seq<int16>)
    requires InUnitSquare(taps) && shift + 2 * |taps| <= len
    ensures |values| == len && IsInterleavedCopy(values, QuantizeTaps(taps), shift)
  {
    var copy := new int16[len];
    for j := 0 to len
      invariant forall k :: 0 <= k < j ==> copy[k] == 0
    {
      copy[j] := 0;
    }
    ghost var q := QuantizeTaps(taps);
    for j := 0 to |taps|
      invariant forall k :: 0 <= k < j ==> copy[shift + 2 * k] == q[k].re && copy[shift + 2 * k + 1] == q[k].im
      invariant forall k :: 0 <= k < shift || shift + 2 * j <= k < len ==> copy[k] == 0
    {
      copy[shift + 2 * j] := Quantize(taps[j].re);
      copy[shift + 2 * j + 1] := Quantize(taps[j].im);
    }
    values := copy[..];
  }

  method CreateInterleavedTaps(taps: seq<Complex>, count: nat) returns (copies: seq<seq<int16>>)
    requires InUnitSquare(taps) && 0 < count
    ensures |copies| == count
    ensures forall i :: 0 <= i < count ==>
              |copies[i]| == 2 * (|taps| + count - 1) && IsInterleavedCopy(copies[i], QuantizeTaps(taps), i)
  {
    copies := [];
    for i := 0 to count
      invariant |copies| == i
      invariant forall k :: 0 <= k < i ==>
                  |copies[k]| == 2 * (|taps| + count - 1) && IsInterleavedCopy(copies[k], QuantizeTaps(taps), k)
    {
      var alignedTapsLen := |taps| + count - 1;
      var copy := InterleavedCopy(taps, i, 2 * alignedTapsLen);
      copies := copies + [copy];
    }
  }
}
