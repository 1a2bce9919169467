/** What the xlating filter computes, per sample format, as a kernel of the streaming filter. */
module XlatingSpec {
  import opened ComplexNumbers
  import opened DotProducts
  import opened FixedPoint
  import opened MachineInts
  import opened Streaming

  /** One cf32 output: the dot product of the window with the (reversed) taps, rotated by the phase. */
  function Cf32Kernel(taps: seq<Complex>, decimation: nat, phaseIncr: Complex): Kernel<Complex, Complex, Complex> {
    Kernel(|taps|, decimation,
           (w: seq<Complex>, p: Complex) => if |w| == |taps| then Mul(Dot(w, taps, |taps|), p) else ZERO,
           (p: Complex) => Mul(p, phaseIncr))
  }

  /** One cs16 output: the saturated accumulators, rotated by the phase. */
  function Cs16Kernel(taps: seq<Iq>, decimation: nat, phaseIncr: Iq): Kernel<Iq, Iq, Iq> {
    Kernel(|taps|, decimation,
           (w: seq<Iq>, p: Iq) => if |w| == |taps| then Rotate(AccumulateWindow(w, taps), p) else IQ_ZERO,
           (p: Iq) => Rotate(p, phaseIncr))
  }

  function AccumulateWindow(w: seq<Iq>, taps: seq<Iq>): Iq
    requires |w| == |taps|
  {
    Iq(Accumulate(DotRe(w, taps, |taps|)), Accumulate(DotIm(w, taps, |taps|)))
  }

  /** The oscillator of a unit increment stays on the unit circle, so normalising it changes nothing. */
  lemma {:induction false} PhaseStaysUnit(taps: seq<Complex>, decimation: nat, phaseIncr: Complex, p: Complex, i: nat)
    requires IsUnit(p) && IsUnit(phaseIncr)
    ensures IsUnit(PhaseAt(Cf32Kernel(taps, decimation, phaseIncr), p, i))
  {
    if i == 0 {
    } else {
      PhaseStaysUnit(taps, decimation, phaseIncr, p, i - 1);
      UnitClosed(PhaseAt(Cf32Kernel(taps, decimation, phaseIncr), p, i - 1), phaseIncr);
    }
  }

  /**
   In every reachable state of the fixed-point oscillator, started at (32767, 0), neither its own
   update nor the rotation of any accumulator value overflows an int32.
   */
  lemma {:induction false} OscillatorNeverOverflows(taps: seq<Iq>, decimation: nat, phaseIncr: Iq, i: nat, acc: Iq)
    requires IncrementBounded(phaseIncr)
    ensures var p := PhaseAt(Cs16Kernel(taps, decimation, phaseIncr), Iq(0x7fff, 0), i);
            && PhaseBounded(p)
            && FitsInt32(RotatedRe(acc, p)) && FitsInt32(RotatedIm(acc, p))
            && FitsInt32(RotatedRe(p, phaseIncr)) && FitsInt32(RotatedIm(p, phaseIncr))
  {
    var k := Cs16Kernel(taps, decimation, phaseIncr);
    if i > 0 {
      OscillatorNeverOverflows(taps, decimation, phaseIncr, i - 1, acc);
      PhaseStaysBounded(PhaseAt(k, Iq(0x7fff, 0), i - 1), phaseIncr);
    }
    RotationFits(acc, PhaseAt(k, Iq(0x7fff, 0), i));
    RotationFits(PhaseAt(k, Iq(0x7fff, 0), i), phaseIncr);
  }

  // ---- Input conversions ----

  function Cu8ToComplex(re: uint8, im: uint8): Complex {
    Complex((re as int as real - 127.5) / 128.0, (im as int as real - 127.5) / 128.0)
  }

  function Cs8ToComplex(re: int8, im: int8): Complex {
    Complex(re as int as real / 128.0, im as int as real / 128.0)
  }

  function Cs16ToComplex(re: int16, im: int16): Complex {
    Complex(re as int as real / 32768.0, im as int as real / 32768.0)
  }

  // Interleaved values as samples; a trailing odd value belongs to no sample.

  function Cu8Samples(input: seq<uint8>): (x: seq<Complex>)
    ensures |x| == |input| / 2
  {
    seq(|input| / 2, i requires 0 <= i < |input| / 2 => Cu8ToComplex(input[2 * i], input[2 * i + 1]))
  }

  function Cs8Samples(input: seq<int8>): (x: seq<Complex>)
    ensures |x| == |input| / 2
  {
    seq(|input| / 2, i requires 0 <= i < |input| / 2 => Cs8ToComplex(input[2 * i], input[2 * i + 1]))
  }

  function Cs16Samples(input: seq<int16>): (x: seq<Complex>)
    ensures |x| == |input| / 2
  {
    seq(|input| / 2, i requires 0 <= i < |input| / 2 => Cs16ToComplex(input[2 * i], input[2 * i + 1]))
  }

  lemma Cu8Concat(a: seq<uint8>, b: seq<uint8>)
    requires |a| % 2 == 0
    ensures Cu8Samples(a + b) == Cu8Samples(a) + Cu8Samples(b)
  {
    forall i | 0 <= i < |Cu8Samples(a + b)|
      ensures Cu8Samples(a + b)[i] == (Cu8Samples(a) + Cu8Samples(b))[i]
    {
      if i >= |a| / 2 {
        assert (a + b)[2 * i] == b[2 * (i - |a| / 2)] && (a + b)[2 * i + 1] == b[2 * (i - |a| / 2) + 1];
      }
    }
  }

  lemma Cs8Concat(a: seq<int8>, b: seq<int8>)
    requires |a| % 2 == 0
    ensures Cs8Samples(a + b) == Cs8Samples(a) + Cs8Samples(b)
  {
    forall i | 0 <= i < |Cs8Samples(a + b)|
      ensures Cs8Samples(a + b)[i] == (Cs8Samples(a) + Cs8Samples(b))[i]
    {
      if i >= |a| / 2 {
        assert (a + b)[2 * i] == b[2 * (i - |a| / 2)] && (a + b)[2 * i + 1] == b[2 * (i - |a| / 2) + 1];
      }
    }
  }

  lemma Cs16Concat(a: seq<int16>, b: seq<int16>)
    requires |a| % 2 == 0
    ensures Cs16Samples(a + b) == Cs16Samples(a) + Cs16Samples(b)
  {
    forall i | 0 <= i < |Cs16Samples(a + b)|
      ensures Cs16Samples(a + b)[i] == (Cs16Samples(a) + Cs16Samples(b))[i]
    {
      if i >= |a| / 2 {
        assert (a + b)[2 * i] == b[2 * (i - |a| / 2)] && (a + b)[2 * i + 1] == b[2 * (i - |a| / 2) + 1];
      }
    }
  }

  function Cu8ToInt16(x: uint8): int16 {
    ((x as int - 128) * 256) as int16
  }

  function Cs8ToInt16(x: int8): int16 {
    (x as int * 256) as int16
  }

  function Cu8Values(input: seq<uint8>): (v: seq<int16>)
    ensures |v| == |input|
  {
    seq(|input|, i requires 0 <= i < |input| => Cu8ToInt16(input[i]))
  }

  function Cs8Values(input: seq<int8>): (v: seq<int16>)
    ensures |v| == |input|
  {
    seq(|input|, i requires 0 <= i < |input| => Cs8ToInt16(input[i]))
  }
}
