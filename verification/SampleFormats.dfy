/**
 Which samples the bytes of a device stand for, byte by byte, and how the two sample formats of the
 filter see them.
 */
module SampleFormats {
  import opened ComplexNumbers
  import opened FixedPoint
  import opened MachineInts
  import opened WorkerSpec
  import opened XlatingSpec

  /** The value of a byte read as a signed one. */
  function Signed8(b: uint8): int {
    if b < 0x80 then b as int else b as int - 0x100
  }

  /** The value of two bytes, the low one first, read as a signed integer. */
  function Signed16(low: uint8, high: uint8): int {
    low as int + 0x100 * Signed8(high)
  }

  /** RTL: I is the even byte, Q the odd one; 0 stands for -255/256 and 255 for 255/256. */
  lemma RtlSample(block: Block, i: nat)
    requires i < |block| / 2
    ensures |Samples(Rtl, block)| == |block| / 2
    ensures 256.0 * Samples(Rtl, block)[i].re + 255.0 == 2.0 * block[2 * i] as int as real
    ensures 256.0 * Samples(Rtl, block)[i].im + 255.0 == 2.0 * block[2 * i + 1] as int as real
  {
  }

  /** HackRF: the bytes are signed 1/128ths. */
  lemma HackRfSample(block: Block, i: nat)
    requires i < |block| / 2
    ensures |Samples(HackRf, block)| == |block| / 2
    ensures 128.0 * Samples(HackRf, block)[i].re == Signed8(block[2 * i]) as real
    ensures 128.0 * Samples(HackRf, block)[i].im == Signed8(block[2 * i + 1]) as real
  {
  }

  /** Airspy: pairs of bytes are signed little-endian 1/32768ths. */
  lemma AirspySample(block: Block, i: nat)
    requires i < |block| / 4
    ensures |Samples(Airspy, block)| == |block| / 4
    ensures 32768.0 * Samples(Airspy, block)[i].re == Signed16(block[4 * i], block[4 * i + 1]) as real
    ensures 32768.0 * Samples(Airspy, block)[i].im == Signed16(block[4 * i + 2], block[4 * i + 3]) as real
  {
    var v := AsInt16(block);
    assert v[2 * i] as int == Signed16(block[4 * i], block[4 * i + 1]);
    assert v[2 * i + 1] as int == Signed16(block[4 * i + 2], block[4 * i + 3]);
  }

  function Negated(c: Complex): Complex {
    Complex(-c.re, -c.im)
  }

  /** Bytes mirrored around 127.5 stand for the negated samples. */
  lemma RtlMirrored(a: Block, b: Block)
    requires |a| == |b| && forall i :: 0 <= i < |a| ==> a[i] as int + b[i] as int == 255
    ensures |Samples(Rtl, b)| == |Samples(Rtl, a)|
    ensures forall i :: 0 <= i < |Samples(Rtl, a)| ==> Samples(Rtl, b)[i] == Negated(Samples(Rtl, a)[i])
  {
    forall i | 0 <= i < |Samples(Rtl, a)|
      ensures Samples(Rtl, b)[i] == Negated(Samples(Rtl, a)[i])
    {
      RtlSample(a, i);
      RtlSample(b, i);
      assert a[2 * i] as int + b[2 * i] as int == 255 && a[2 * i + 1] as int + b[2 * i + 1] as int == 255;
    }
  }

  /** A larger byte stands for a larger component, and each component has a byte of its own. */
  lemma RtlIncreasing(a: Block, b: Block, i: nat, j: nat)
    requires i < |a| / 2 && j < |b| / 2
    ensures a[2 * i] < b[2 * j] <==> Samples(Rtl, a)[i].re < Samples(Rtl, b)[j].re
    ensures a[2 * i + 1] < b[2 * j + 1] <==> Samples(Rtl, a)[i].im < Samples(Rtl, b)[j].im
  {
    RtlSample(a, i);
    RtlSample(b, j);
  }

  // ---- The fixed-point path sees the same signal ----

  /** The sample that an I/Q pair of int16 stands for, in units of 1/32768. */
  function AsComplex(s: Iq): Complex {
    Complex(s.re as int as real, s.im as int as real)
  }

  /** Signed input is the same on both paths. */
  lemma SignedAgrees(re: int8, im: int8)
    ensures AsComplex(Iq(Cs8ToInt16(re), Cs8ToInt16(im))) == Scale(32768.0, Cs8ToComplex(re, im))
    ensures Cs8ToInt16(re) as int == 256 * re as int
  {
  }

  lemma Int16Agrees(re: int16, im: int16)
    ensures AsComplex(Iq(re, im)) == Scale(32768.0, Cs16ToComplex(re, im))
  {
  }

  /** Unsigned input is half a step lower on the fixed-point path: 0 stands for -1, 128 for silence. */
  lemma UnsignedAgrees(re: uint8, im: uint8)
    ensures Add(AsComplex(Iq(Cu8ToInt16(re), Cu8ToInt16(im))), Complex(128.0, 128.0))
            == Scale(32768.0, Cu8ToComplex(re, im))
    ensures Cu8ToInt16(re) as int == 256 * re as int - 32768
  {
  }
}
