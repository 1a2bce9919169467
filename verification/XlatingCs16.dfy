/**
 The frequency-translating decimating filter on int16 samples, bit for bit: buffers are
 interleaved, sample `i` lies at positions 2i and 2i + 1.
 */
module XlatingCs16 {
  import opened ComplexNumbers
  import opened FixedPoint
  import opened MachineInts
  import opened Streaming
  import opened Taps
  import opened XlatingSpec

  const ALIGNMENT: nat := 4
  const VALUE_SIZE: nat := 2
  const COPIES: nat := 2
  /** The tap count comes from an int. */
  const MAX_TAPS: nat := 0x7fff_ffff

  /** The first `n` samples of interleaved values. */
  function Samples(values: seq<int16>, n: nat): (x: seq<Iq>)
    requires 2 * n <= |values|
    ensures |x| == n
  {
    seq(n, i requires 0 <= i < n => Iq(values[2 * i], values[2 * i + 1]))
  }

  lemma SamplesStored(values: seq<int16>, n: nat, x: Iq)
    requires 2 * n + 1 < |values|
    ensures Samples(values[2 * n := x.re][2 * n + 1 := x.im], n + 1) == Samples(values, n) + [x]
  {
  }

  class Filter {
    const decimation: nat
    const tapsLen: nat
    const copies: seq<seq<int16>>
    const maxInput: nat
    const workingBuffer: array<int16>
    const baseAddress: nat
    const output: array<int16>
    const phaseIncrReal: int16
    const phaseIncrImag: int16

    var historyOffset: nat
    var phaseReal: int16
    var phaseImag: int16

    /** The taps the copies were made from. */
    ghost const taps: seq<Iq>

    ghost function Phase(): Iq
      reads this`phaseReal, this`phaseImag
    {
      Iq(phaseReal, phaseImag)
    }

    ghost function PhaseIncr(): Iq {
      Iq(phaseIncrReal, phaseIncrImag)
    }

    /** How `create_frequency_xlating_filter` leaves it and calls keep it. */
    ghost predicate Built()
      reads this
    {
      && 0 < decimation && tapsLen == |taps| <= MAX_TAPS && tapsLen > 0
      && TapsBounded(taps)
      && |copies| == COPIES && IsInterleavedCopy(copies[0], taps, 0)
      && baseAddress % ALIGNMENT == 0
      && workingBuffer.Length == 2 * (maxInput / 2 + tapsLen - 1)
      && output.Length == 2 * (maxInput / 2 / decimation + 1)
      && workingBuffer != output
      && IncrementBounded(PhaseIncr())
      && historyOffset <= tapsLen - 1
      && PhaseBounded(Phase())
    }

    /** Fit for calls: with a larger decimation the very first output makes the history underflow. */
    ghost predicate Valid()
      reads this
    {
      Built() && decimation <= tapsLen
    }

    ghost function Kernel(): Kernel<Iq, Iq, Iq> {
      Cs16Kernel(taps, decimation, PhaseIncr())
    }

    /** The samples kept from earlier calls. */
    ghost function History(): seq<Iq>
      requires Built()
      reads this, workingBuffer
    {
      Samples(workingBuffer[..], historyOffset)
    }

    constructor (taps: seq<Iq>, copies: seq<seq<int16>>, decimation: nat, phaseIncr: Iq, maxInput: nat,
                 workingBuffer: array<int16>, baseAddress: nat, output: array<int16>)
      requires 0 < decimation && 0 < |taps| <= MAX_TAPS && TapsBounded(taps)
      requires |copies| == COPIES && IsInterleavedCopy(copies[0], taps, 0)
      requires baseAddress % ALIGNMENT == 0
      requires workingBuffer.Length == 2 * (maxInput / 2 + |taps| - 1)
      requires output.Length == 2 * (maxInput / 2 / decimation + 1) && workingBuffer != output
      requires forall i :: 0 <= i < workingBuffer.Length ==> workingBuffer[i] == 0
      requires IncrementBounded(phaseIncr)
      ensures Built() && History() == seq(|taps| - 1, _ => IQ_ZERO) && Phase() == Iq(0x7fff, 0)
      ensures Valid() <==> decimation <= |taps|
      ensures this.taps == taps && this.decimation == decimation && PhaseIncr() == phaseIncr
      ensures this.maxInput == maxInput && this.workingBuffer == workingBuffer && this.output == output
    {
      this.taps, this.tapsLen, this.copies := taps, |taps|, copies;
      this.decimation, this.maxInput := decimation, maxInput;
      this.phaseIncrReal, this.phaseIncrImag := phaseIncr.re, phaseIncr.im;
      this.workingBuffer, this.baseAddress, this.output := workingBuffer, baseAddress, output;
      historyOffset := |taps| - 1;
      phaseReal, phaseImag := 0x7fff, 0;
    }

    /** Both accumulators for the window at `index`, in int64, from int32 terms. */
    method WindowDot(index: nat, ghost w: seq<Iq>) returns (tempReal: int, tempImag: int)
      requires Valid() && |w| == tapsLen
      requires 2 * (index + tapsLen) <= workingBuffer.Length
      requires forall j :: 0 <= j < tapsLen ==>
                 w[j].re == workingBuffer[2 * (index + j)] && w[j].im == workingBuffer[2 * (index + j) + 1]
      ensures tempReal == DotRe(w, taps, tapsLen) && tempImag == DotIm(w, taps, tapsLen)
    {
      AlignIndexCs16(baseAddress, index);
      var alignIndex := AlignIndex(baseAddress, VALUE_SIZE, 2 * index, ALIGNMENT);
      var start := (RoundDown(baseAddress + VALUE_SIZE * (2 * index), ALIGNMENT) - baseAddress) / VALUE_SIZE;
      assert alignIndex == 0 && start == 2 * index;
      tempReal, tempImag := 0, 0;
      var i := 0;
      ghost var j := 0;
      while i < 2 * (tapsLen + alignIndex)
        invariant i == 2 * j && j <= tapsLen
        invariant tempReal == DotRe(w, taps, j) && tempImag == DotIm(w, taps, j)
      {
        var ar, ai := workingBuffer[start + i] as int, workingBuffer[start + i + 1] as int;
        var br, bi := copies[alignIndex][i] as int, copies[alignIndex][i + 1] as int;
        assert Iq(ar as int16, ai as int16) == w[j] && Iq(br as int16, bi as int16) == taps[j];
        TermFits(w[j], taps[j]);
        DotBound(w, taps, j + 1);
        tempReal := Int64(tempReal + Int32(ar * br - ai * bi));
        tempImag := Int64(tempImag + Int32(ar * bi + ai * br));
        i := i + 2;
        j := j + 1;
      }
    }

    /** After `produced` samples the window is at `index` and the run `full` over `w` is right on track. */
    ghost predicate OnTrack(full: Run<Iq, Iq, Iq>, w: seq<Iq>, index: nat, produced: nat)
      reads this`phaseReal, this`phaseImag, output
    {
      && 0 < decimation <= |taps|
      && index == produced * decimation && index <= |w|
      && 2 * produced <= output.Length
      && full == Continue(Samples(output[..], produced), RunFrom(w, index, Phase()))
    }

    /** The rest of a run over the buffer contents `w`, from position `index` on. */
    ghost function RunFrom(w: seq<Iq>, index: nat, p: Iq): Run<Iq, Iq, Iq>
      requires 0 < decimation <= |taps| && index <= |w|
    {
      Streaming.Filter(Kernel(), w[index..], p)
    }

    /** Both accumulators, shifted, narrowed and saturated. */
    method AccumulateAt(index: nat, ghost w: seq<Iq>) returns (accReal: int16, accImag: int16)
      requires Valid() && index + tapsLen <= |w| && 2 * |w| <= workingBuffer.Length
      requires Samples(workingBuffer[..], |w|) == w
      ensures Iq(accReal, accImag) == AccumulateWindow(w[index..index + tapsLen], taps)
    {
      ghost var window := w[index..index + tapsLen];
      assert forall j :: 0 <= j < tapsLen ==> window[j] == w[index + j];
      var tempReal, tempImag := WindowDot(index, window);
      accReal := SaturateToInt16(Narrow32(Shift15(tempReal)));
      accImag := SaturateToInt16(Narrow32(Shift15(tempImag)));
    }

    /** One output sample at positions `produced` and `produced + 1`, and the phase advanced. */
    method Emit(index: nat, produced: nat, ghost n: nat, ghost w: seq<Iq>, ghost full: Run<Iq, Iq, Iq>)
      requires Valid() && index + tapsLen <= |w| && 2 * |w| <= workingBuffer.Length
      requires Samples(workingBuffer[..], |w|) == w
      requires produced == 2 * n && OnTrack(full, w, index, n) && index < maxInput / 2
      modifies this`phaseReal, this`phaseImag, output
      ensures Valid() && OnTrack(full, w, index + decimation, n + 1)
    {
      hide Streaming.Filter, Rotate;
      OutputRoom(maxInput / 2, decimation, index, n);
      var accReal, accImag := AccumulateAt(index, w);
      ghost var acc, p, before := Iq(accReal, accImag), Phase(), output[..];
      ghost var value, next, done := Rotate(acc, p), Rotate(p, PhaseIncr()), Samples(before, n);
      OneOutputMore(Kernel(), full, done, w, index, p, value);
      assert full == Continue(done + [value], RunFrom(w, index + decimation, next));
      SamplesStored(before, n, value);
      Store(produced, accReal, accImag);
      assert Samples(output[..], n + 1) == done + [value];
      Advance();
      assert Phase() == next;
    }

    /** The accumulator rotated by the phase, saturated and stored. */
    method Store(at: nat, accReal: int16, accImag: int16)
      requires Valid() && at + 1 < output.Length
      modifies output
      ensures var r := Rotate(Iq(accReal, accImag), Phase());
              output[..] == old(output[..])[at := r.re][at + 1 := r.im]
    {
      RotationFits(Iq(accReal, accImag), Phase());
      var ar, ai, pr, pi := accReal as int, accImag as int, phaseReal as int, phaseImag as int;
      var tempReal := Int32(ar * pr - ai * pi);
      var tempImag := Int32(ar * pi + ai * pr);
      SmallAccumulate(tempReal);
      SmallAccumulate(tempImag);
      output[at] := SaturateToInt16(Narrow32(Shift15(tempReal)));
      output[at + 1] := SaturateToInt16(Narrow32(Shift15(tempImag)));
    }

    method Advance()
      requires Valid()
      modifies this`phaseReal, this`phaseImag
      ensures Valid() && Phase() == Rotate(old(Phase()), PhaseIncr())
    {
      RotationFits(PhaseIncr(), Phase());
      PhaseStaysBounded(Phase(), PhaseIncr());
      var pr, pi, ir, ii := phaseReal as int, phaseImag as int, phaseIncrReal as int, phaseIncrImag as int;
      RotationFits(Phase(), Phase());
      var tempReal := Int32(pr * ir - pi * ii);
      var tempImag := Int32(pr * ii + pi * ir);
      SmallAccumulate(tempReal);
      SmallAccumulate(tempImag);
      phaseReal := SaturateToInt16(Narrow32(Shift15(tempReal)));
      phaseImag := SaturateToInt16(Narrow32(Shift15(tempImag)));
    }

    /** Keeps what starts at sample `currentSample` as history (memmove to the front of the buffer). */
    method KeepHistory(workingLen: nat, currentSample: nat)
      requires Valid() && currentSample <= workingLen && 2 * workingLen <= workingBuffer.Length
      requires workingLen - currentSample <= tapsLen - 1
      modifies this`historyOffset, workingBuffer
      ensures Valid() && History() == old(Samples(workingBuffer[..], workingLen)[currentSample..])
    {
      historyOffset := workingLen - currentSample;
      if currentSample > 0 {
        forall i | 0 <= i < 2 * historyOffset {
          workingBuffer[i] := workingBuffer[i + 2 * currentSample];
        }
      }
    }

    /** What a call over `x` new samples does to history, phase and output, in terms of the kernel. */
    ghost predicate Processed(history: seq<Iq>, p: Iq, x: seq<Iq>, produced: nat)
      requires Valid()
      reads this, workingBuffer, output
    {
      var r := Streaming.Filter(Kernel(), history + x, p);
      && 2 * produced <= output.Length
      && Samples(output[..], produced) == r.out
      && History() == r.rest
      && Phase() == r.phase
    }

    /** Emits one output per window position, up to the end of the buffer contents `w`. */
    method Slide(workingLen: nat, ghost w: seq<Iq>, ghost full: Run<Iq, Iq, Iq>)
      returns (currentSample: nat, outputLen: nat)
      requires Valid() && |w| == workingLen && 2 * workingLen <= workingBuffer.Length
      requires Samples(workingBuffer[..], workingLen) == w && OnTrack(full, w, 0, 0)
      modifies this`phaseReal, this`phaseImag, output
      ensures Valid() && OnTrack(full, w, currentSample, outputLen)
      ensures currentSample <= workingLen < currentSample + tapsLen
    {
      var produced := 0;
      ghost var n := 0;
      currentSample := 0;
      if workingLen > tapsLen - 1 {
        var maxSampleIndex := workingLen - (tapsLen - 1);
        while currentSample < maxSampleIndex
          invariant Valid()
          invariant currentSample <= workingLen && produced == 2 * n
          invariant OnTrack(full, w, currentSample, n)
          decreases workingLen - currentSample
        {
          Emit(currentSample, produced, n, w, full);
          currentSample := currentSample + decimation;
          produced := produced + 2;
          n := n + 1;
        }
      }
      outputLen := produced / 2;
    }

    /** Slides the window over history and the samples `x` stored behind it. */
    method Process(inputLen: nat, ghost x: seq<Iq>) returns (outputLen: nat)
      requires Valid() && |x| == inputLen <= maxInput / 2
      requires Samples(workingBuffer[..], historyOffset + inputLen) == History() + x
      modifies this`historyOffset, this`phaseReal, this`phaseImag, workingBuffer, output
      ensures Valid() && Processed(old(History()), old(Phase()), x, outputLen)
    {
      var workingLen := historyOffset + inputLen;
      ghost var w := History() + x;
      ghost var full := Streaming.Filter(Kernel(), w, Phase());
      ContinueDone(full.out, full.rest, full.phase);
      assert Samples(output[..], 0) == [] && w[0..] == w;
      var currentSample: nat;
      currentSample, outputLen := Slide(workingLen, w, full);
      ContinueDone(Samples(output[..], outputLen), w[currentSample..], Phase());
      KeepHistory(workingLen, currentSample);
    }

    /** Input values that fit behind the history; a trailing odd value is stored but not used. */
    ghost predicate Fits(inputLen: nat)
      reads this
    {
      inputLen / 2 <= maxInput / 2 && 2 * historyOffset + inputLen <= workingBuffer.Length
    }

    method ProcessCu8(input: seq<uint8>) returns (outputLen: nat)
      requires Valid() && Fits(|input|)
      modifies this`historyOffset, this`phaseReal, this`phaseImag, workingBuffer, output
      ensures Valid()
      ensures Processed(old(History()), old(Phase()), Samples(Cu8Values(input), |input| / 2), outputLen)
    {
      for i := 0 to |input|
        invariant workingBuffer[..2 * historyOffset] == old(workingBuffer[..2 * historyOffset])
        invariant forall k :: 0 <= k < i ==> workingBuffer[k + 2 * historyOffset] == Cu8ToInt16(input[k])
        modifies workingBuffer
      {
        workingBuffer[i + 2 * historyOffset] := Cu8ToInt16(input[i]);
      }
      ghost var x := Samples(Cu8Values(input), |input| / 2);
      Stored(old(workingBuffer[..]), Cu8Values(input));
      outputLen := Process(|input| / 2, x);
    }

    method ProcessCs8(input: seq<int8>) returns (outputLen: nat)
      requires Valid() && Fits(|input|)
      modifies this`historyOffset, this`phaseReal, this`phaseImag, workingBuffer, output
      ensures Valid()
      ensures Processed(old(History()), old(Phase()), Samples(Cs8Values(input), |input| / 2), outputLen)
    {
      for i := 0 to |input|
        invariant workingBuffer[..2 * historyOffset] == old(workingBuffer[..2 * historyOffset])
        invariant forall k :: 0 <= k < i ==> workingBuffer[k + 2 * historyOffset] == Cs8ToInt16(input[k])
        modifies workingBuffer
      {
        workingBuffer[i + 2 * historyOffset] := Cs8ToInt16(input[i]);
      }
      ghost var x := Samples(Cs8Values(input), |input| / 2);
      Stored(old(workingBuffer[..]), Cs8Values(input));
      outputLen := Process(|input| / 2, x);
    }

    method ProcessCs16(input: seq<int16>) returns (outputLen: nat)
      requires Valid() && Fits(|input|)
      modifies this`historyOffset, this`phaseReal, this`phaseImag, workingBuffer, output
      ensures Valid()
      ensures Processed(old(History()), old(Phase()), Samples(input, |input| / 2), outputLen)
    {
      for i := 0 to |input|
        invariant workingBuffer[..2 * historyOffset] == old(workingBuffer[..2 * historyOffset])
        invariant forall k :: 0 <= k < i ==> workingBuffer[k + 2 * historyOffset] == input[k]
        modifies workingBuffer
      {
        workingBuffer[i + 2 * historyOffset] := input[i];
      }
      ghost var x := Samples(input, |input| / 2);
      Stored(old(workingBuffer[..]), input);
      outputLen := Process(|input| / 2, x);
    }

    /** A caller that hands over one block after another and collects the output. */
    method ProcessBlocks(blocks: seq<seq<int16>>) returns (out: seq<Iq>)
      requires Valid() && forall i :: 0 <= i < |blocks| ==> |blocks[i]| <= 2 * (maxInput / 2)
      modifies this`historyOffset, this`phaseReal, this`phaseImag, workingBuffer, output
      ensures Valid()
      ensures Run(out, History(), Phase())
              == Streaming.Filter(Kernel(), old(History()) + Concat(BlockSamples(blocks)), old(Phase()))
    {
      ghost var history, p := History(), Phase();
      out := [];
      for i := 0 to |blocks|
        invariant Valid()
        invariant Run(out, History(), Phase()) == FilterBlocks(Kernel(), history, p, BlockSamples(blocks[..i]))
      {
        BlockSamplesStep(blocks, i);
        var outputLen := ProcessCs16(blocks[i]);
        out := out + Samples(output[..], outputLen);
      }
      assert blocks[..|blocks|] == blocks;
      ChunkIndependence(Kernel(), history, p, BlockSamples(blocks));
    }

    /** Values written behind the history read back as its samples followed by theirs. */
    lemma Stored(before: seq<int16>, values: seq<int16>)
      requires Valid() && Fits(|values|) && |before| == workingBuffer.Length
      requires workingBuffer[..2 * historyOffset] == before[..2 * historyOffset]
      requires forall k :: 0 <= k < |values| ==> workingBuffer[k + 2 * historyOffset] == values[k]
      ensures History() == Samples(before, historyOffset)
      ensures Samples(workingBuffer[..], historyOffset + |values| / 2) == History() + Samples(values, |values| / 2)
    {
      forall i | 0 <= i < historyOffset
        ensures History()[i] == Samples(before, historyOffset)[i]
      {
        assert workingBuffer[..2 * historyOffset][2 * i] == before[2 * i];
        assert workingBuffer[..2 * historyOffset][2 * i + 1] == before[2 * i + 1];
      }
      forall i | 0 <= i < |values| / 2
        ensures Samples(workingBuffer[..], historyOffset + |values| / 2)[historyOffset + i]
             == Samples(values, |values| / 2)[i]
      {
        assert workingBuffer[2 * i + 2 * historyOffset] == values[2 * i];
        assert workingBuffer[2 * i + 1 + 2 * historyOffset] == values[2 * i + 1];
      }
    }
  }

  /** The samples of each block. */
  function BlockSamples(blocks: seq<seq<int16>>): (s: seq<seq<Iq>>)
    ensures |s| == |blocks|
  {
    seq(|blocks|, i requires 0 <= i < |blocks| => Samples(blocks[i], |blocks[i]| / 2))
  }

  lemma BlockSamplesStep(blocks: seq<seq<int16>>, i: nat)
    requires i < |blocks|
    ensures var s := BlockSamples(blocks[..i + 1]);
            s[..i] == BlockSamples(blocks[..i]) && s[i] == Samples(blocks[i], |blocks[i]| / 2)
  {
  }

  /** Creation once the oscillator's increment is known. */
  method CreateWith(decimation: nat, taps: seq<real>, z: Complex, phaseIncr: Iq, maxInput: nat, baseAddress: nat)
    returns (filter: Filter)
    requires 0 < decimation && 0 < |taps| <= MAX_TAPS && InUnitSquare(BandPass(taps, z))
    requires IsUnit(z) && IncrementBounded(phaseIncr) && baseAddress % ALIGNMENT == 0
    ensures filter.Built() && (filter.Valid() <==> decimation <= |taps|)
    ensures fresh(filter) && fresh(filter.workingBuffer) && fresh(filter.output)
    ensures InUnitSquare(Swapped(BandPass(taps, z)))
    ensures filter.Kernel() == Cs16Kernel(QuantizeTaps(Swapped(BandPass(taps, z))), decimation, phaseIncr)
    ensures filter.maxInput == maxInput
    ensures filter.History() == seq(|taps| - 1, _ => IQ_ZERO) && filter.Phase() == Iq(0x7fff, 0)
  {
    var bpfTaps := PrepareTaps(taps, z);
    SwappedInUnitSquare(BandPass(taps, z));
    QuantizedTapsBounded(bpfTaps);
    var copies := CreateInterleavedTaps(bpfTaps, COPIES);
    var workingBuffer := new int16[2 * (maxInput / 2 + (|taps| - 1))](_ => 0);
    var output := new int16[2 * (maxInput / 2 / decimation + 1)](_ => 0);
    filter := new Filter(QuantizeTaps(bpfTaps), copies, decimation, phaseIncr, maxInput,
                         workingBuffer, baseAddress, output);
  }

  /**
   Creation for taps to be moved to the frequency whose rotation per sample is the unit `z`; the
   rotated taps must convert to int16, and the filter is fit for calls exactly when the decimation
   is at most their number. No taps at all is the one error.
   */
  method Create(decimation: nat, taps: seq<real>, z: Complex, maxInput: nat, baseAddress: nat)
    returns (code: int, filter: Filter?)
    requires 0 < decimation && |taps| <= MAX_TAPS && InUnitSquare(BandPass(taps, z))
    requires IsUnit(z) && baseAddress % ALIGNMENT == 0
    ensures code == (if taps == [] then -1 else 0)
    ensures filter == null <==> code != 0
    ensures filter != null ==>
              && filter.Built() && (filter.Valid() <==> decimation <= |taps|)
              && fresh(filter) && fresh(filter.workingBuffer) && fresh(filter.output)
              && InUnitSquare(Swapped(BandPass(taps, z)))
              && filter.Kernel() == Cs16Kernel(QuantizeTaps(Swapped(BandPass(taps, z))), decimation,
                                               PhaseIncrement(z, decimation))
              && filter.maxInput == maxInput
              && filter.History() == seq(|taps| - 1, _ => IQ_ZERO) && filter.Phase() == Iq(0x7fff, 0)
  {
    if taps == [] {
      return -1, null;
    }
    filter := CreateWith(decimation, taps, z, PhaseIncrement(z, decimation), maxInput, baseAddress);
    code := 0;
  }
}
