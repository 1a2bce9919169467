/** The frequency-translating decimating filter on complex floats, in exact arithmetic. */
module XlatingCf32 {
  import opened ComplexNumbers
  import opened DotProducts
  import opened MachineInts
  import opened Streaming
  import opened Taps
  import opened XlatingSpec

  /** Which form of the filter loop is compiled in: plain C, NEON intrinsics or AVX intrinsics. */
  datatype Build = Native | Neon | Avx

  const ALIGNMENT: nat := 32
  const SAMPLE_SIZE: nat := 8
  const COPIES: nat := 4

  class Filter {
    const decimation: nat
    const tapsLen: nat
    const copies: seq<seq<Complex>>
    const maxInput: nat
    const workingBuffer: array<Complex>
    const baseAddress: nat
    const output: array<Complex>
    const phaseIncr: Complex
    /** hypotf; its value matters only on the unit circle. */
    const hypot: (real, real) -> real

    var historyOffset: nat
    var phase: Complex

    /** The taps the copies were made from. */
    ghost const taps: seq<Complex>

    /** How `create_frequency_xlating_filter` leaves it and calls keep it. */
    ghost predicate Built()
      reads this
    {
      && 0 < decimation && tapsLen == |taps| && tapsLen > 0
      && |copies| == COPIES
      && (forall i :: 0 <= i < COPIES ==> copies[i] == AlignedCopy(taps, i, COPIES))
      && baseAddress % ALIGNMENT == 0
      && workingBuffer.Length == maxInput / 2 + tapsLen - 1
      && output.Length == maxInput / 2 / decimation + 1
      && workingBuffer != output
      && IsUnit(phaseIncr)
      && (forall re, im :: re * re + im * im == 1.0 ==> hypot(re, im) == 1.0)
      && historyOffset <= tapsLen - 1
      && IsUnit(phase)
    }

    /** Fit for calls: with a larger decimation the very first output makes the history underflow. */
    ghost predicate Valid()
      reads this
    {
      Built() && decimation <= tapsLen
    }

    ghost function Kernel(): Kernel<Complex, Complex, Complex> {
      Cf32Kernel(taps, decimation, phaseIncr)
    }

    /** The samples kept from earlier calls. */
    ghost function History(): seq<Complex>
      requires Built()
      reads this, workingBuffer
    {
      workingBuffer[..historyOffset]
    }

    /** After `produced` outputs the window is at `index` and the run `full` over `w` is right on track. */
    ghost predicate OnTrack(full: Run<Complex, Complex, Complex>, w: seq<Complex>, index: nat, produced: nat)
      reads this`phase, output
    {
      && 0 < decimation <= |taps|
      && index == produced * decimation && index <= |w|
      && produced <= output.Length
      && full == Continue(output[..produced], RunFrom(w, index, phase))
    }

    /** The rest of a run over the buffer contents `w`, from position `index` on. */
    ghost function RunFrom(w: seq<Complex>, index: nat, p: Complex): Run<Complex, Complex, Complex>
      requires 0 < decimation <= |taps| && index <= |w|
    {
      Streaming.Filter(Kernel(), w[index..], p)
    }

    constructor (taps: seq<Complex>, copies: seq<seq<Complex>>, decimation: nat, phaseIncr: Complex, maxInput: nat,
                 workingBuffer: array<Complex>, baseAddress: nat, output: array<Complex>, hypot: (real, real) -> real)
      requires 0 < decimation && 0 < |taps|
      requires |copies| == COPIES && forall i :: 0 <= i < COPIES ==> copies[i] == AlignedCopy(taps, i, COPIES)
      requires baseAddress % ALIGNMENT == 0
      requires workingBuffer.Length == maxInput / 2 + |taps| - 1 && output.Length == maxInput / 2 / decimation + 1
      requires workingBuffer != output && workingBuffer[..] == Zeros(workingBuffer.Length)
      requires IsUnit(phaseIncr)
      requires forall re, im :: re * re + im * im == 1.0 ==> hypot(re, im) == 1.0
      ensures Built() && History() == Zeros(|taps| - 1) && phase == ONE
      ensures Valid() <==> decimation <= |taps|
      ensures this.taps == taps && this.decimation == decimation && this.phaseIncr == phaseIncr
      ensures this.maxInput == maxInput && this.workingBuffer == workingBuffer && this.output == output
    {
      this.taps, this.tapsLen, this.copies := taps, |taps|, copies;
      this.decimation, this.phaseIncr, this.maxInput := decimation, phaseIncr, maxInput;
      this.workingBuffer, this.baseAddress, this.output, this.hypot := workingBuffer, baseAddress, output, hypot;
      historyOffset := |taps| - 1;
      phase := ONE;
    }

    /** The accumulator for the window at `index`, computed from aligned memory. */
    method WindowDot(build: Build, index: nat) returns (temp: Complex)
      requires Valid() && index + tapsLen <= workingBuffer.Length
      ensures temp == Dot(workingBuffer[index..index + tapsLen], taps, tapsLen)
    {
      AlignIndexCf32(baseAddress, index);
      var alignIndex := AlignIndex(baseAddress, SAMPLE_SIZE, index, ALIGNMENT);
      var alignedStart := (RoundDown(baseAddress + SAMPLE_SIZE * index, ALIGNMENT) - baseAddress) / SAMPLE_SIZE;
      var numSamples := tapsLen + alignIndex;
      ghost var w := workingBuffer[alignedStart..alignedStart + numSamples];
      AlignedDot(w, taps, alignIndex, COPIES);
      assert w[alignIndex..] == workingBuffer[index..index + tapsLen];
      match build
      case Native => temp := DotNative(workingBuffer, alignedStart, copies[alignIndex], numSamples);
      case Neon => temp := DotNeon(workingBuffer, alignedStart, copies[alignIndex], numSamples);
      case Avx => temp := DotAvx(workingBuffer, alignedStart, copies[alignIndex], numSamples);
    }

    /** What a call over `x` new samples does to history, phase and output, in terms of the kernel. */
    ghost predicate Processed(history: seq<Complex>, p: Complex, x: seq<Complex>, produced: nat)
      requires Valid()
      reads this, workingBuffer, output
    {
      var r := Streaming.Filter(Kernel(), history + x, p);
      && produced <= output.Length
      && output[..produced] == r.out
      && History() == r.rest
      && phase == r.phase
    }

    /**
     One output: the accumulator rotated by the phase, and the phase advanced. `full`, the run over
     the whole buffer `w`, stays what has been emitted continued by the run from here on.
     */
    method Emit(build: Build, index: nat, produced: nat, ghost w: seq<Complex>,
                ghost full: Run<Complex, Complex, Complex>)
      requires Valid() && index + tapsLen <= |w| <= workingBuffer.Length && workingBuffer[..|w|] == w
      requires OnTrack(full, w, index, produced) && index < maxInput / 2
      modifies this`phase, output
      ensures Valid() && OnTrack(full, w, index + decimation, produced + 1)
    {
      hide Streaming.Filter, Mul;
      OutputRoom(maxInput / 2, decimation, index, produced);
      var temp := WindowDot(build, index);
      PrefixSlice(workingBuffer, w, index, index + tapsLen);
      ghost var before := output[..produced];
      OneOutputMore(Kernel(), full, before, w, index, phase, Mul(temp, phase));
      UnitClosed(phase, phaseIncr);
      var value, next := Mul(temp, phase), Mul(phase, phaseIncr);
      output[produced] := value;
      phase := next;
      assert output[..produced + 1] == before + [value];
    }

    /** Division by the magnitude, left out of the AVX form; the magnitude of the phase is one. */
    method Normalize(build: Build)
      requires Valid()
      modifies this`phase
      ensures Valid() && phase == old(phase)
    {
      if build != Avx {
        var h := hypot(phase.re, phase.im);
        phase := Complex(phase.re / h, phase.im / h);
      }
    }

    /** Keeps what starts at `currentIndex` as history (memmove to the front of the buffer). */
    method KeepHistory(workingLen: nat, currentIndex: nat)
      requires Valid() && currentIndex <= workingLen <= workingBuffer.Length
      requires workingLen - currentIndex <= tapsLen - 1
      modifies this`historyOffset, workingBuffer
      ensures Valid() && History() == old(workingBuffer[currentIndex..workingLen])
    {
      historyOffset := workingLen - currentIndex;
      if currentIndex > 0 {
        forall i | 0 <= i < historyOffset {
          workingBuffer[i] := workingBuffer[i + currentIndex];
        }
      }
    }

    /** Emits one output per window position, up to the end of the buffer contents `w`. */
    method Slide(build: Build, workingLen: nat, ghost w: seq<Complex>, ghost full: Run<Complex, Complex, Complex>)
      returns (currentIndex: nat, produced: nat)
      requires Valid() && |w| == workingLen <= workingBuffer.Length && workingBuffer[..workingLen] == w
      requires workingLen - (tapsLen - 1) <= maxInput / 2 && OnTrack(full, w, 0, 0)
      modifies this`phase, output
      ensures Valid() && OnTrack(full, w, currentIndex, produced)
      ensures currentIndex <= workingLen < currentIndex + tapsLen
    {
      currentIndex, produced := 0, 0;
      if workingLen > tapsLen - 1 {
        var maxIndex := workingLen - (tapsLen - 1);
        while currentIndex < maxIndex
          invariant Valid()
          invariant currentIndex <= workingLen && workingBuffer[..workingLen] == w
          invariant OnTrack(full, w, currentIndex, produced)
          decreases workingLen - currentIndex
        {
          Emit(build, currentIndex, produced, w, full);
          currentIndex := currentIndex + decimation;
          produced := produced + 1;
        }
        Normalize(build);
      }
    }

    /** Slides the window over history and the samples `x` stored behind it. */
    method Process(build: Build, inputLen: nat, ghost x: seq<Complex>) returns (produced: nat)
      requires Valid() && |x| == inputLen <= maxInput / 2
      requires workingBuffer[historyOffset..historyOffset + inputLen] == x
      modifies this`historyOffset, this`phase, workingBuffer, output
      ensures Valid() && Processed(old(History()), old(phase), x, produced)
    {
      var workingLen := historyOffset + inputLen;
      ghost var w := History() + x;
      ghost var full := Streaming.Filter(Kernel(), w, phase);
      assert workingBuffer[..workingLen] == w;
      ContinueDone(full.out, full.rest, full.phase);
      assert output[..0] == [] && w[0..] == w;
      var currentIndex: nat;
      currentIndex, produced := Slide(build, workingLen, w, full);
      ContinueDone(output[..produced], w[currentIndex..], phase);
      PrefixSlice(workingBuffer, w, currentIndex, workingLen);
      KeepHistory(workingLen, currentIndex);
    }

    method ProcessCu8(build: Build, input: seq<uint8>) returns (produced: nat)
      requires Valid() && |input| <= maxInput
      modifies this`historyOffset, this`phase, workingBuffer, output
      ensures Valid() && Processed(old(History()), old(phase), Cu8Samples(input), produced)
    {
      var n := |input| / 2;
      for i := 0 to n
        invariant History() == old(History())
        invariant forall k :: 0 <= k < i ==>
                    workingBuffer[historyOffset + k] == Cu8ToComplex(input[2 * k], input[2 * k + 1])
        modifies workingBuffer
      {
        workingBuffer[i + historyOffset] := Cu8ToComplex(input[2 * i], input[2 * i + 1]);
      }
      ghost var x := Cu8Samples(input);
      assert workingBuffer[historyOffset..historyOffset + n] == x;
      produced := Process(build, n, x);
    }

    method ProcessCs8(build: Build, input: seq<int8>) returns (produced: nat)
      requires Valid() && |input| <= maxInput
      modifies this`historyOffset, this`phase, workingBuffer, output
      ensures Valid() && Processed(old(History()), old(phase), Cs8Samples(input), produced)
    {
      var n := |input| / 2;
      for i := 0 to n
        invariant History() == old(History())
        invariant forall k :: 0 <= k < i ==>
                    workingBuffer[historyOffset + k] == Cs8ToComplex(input[2 * k], input[2 * k + 1])
        modifies workingBuffer
      {
        workingBuffer[i + historyOffset] := Cs8ToComplex(input[2 * i], input[2 * i + 1]);
      }
      ghost var x := Cs8Samples(input);
      assert workingBuffer[historyOffset..historyOffset + n] == x;
      produced := Process(build, n, x);
    }

    method ProcessCs16(build: Build, input: seq<int16>) returns (produced: nat)
      requires Valid() && |input| <= maxInput
      modifies this`historyOffset, this`phase, workingBuffer, output
      ensures Valid() && Processed(old(History()), old(phase), Cs16Samples(input), produced)
    {
      var n := |input| / 2;
      for i := 0 to n
        invariant History() == old(History())
        invariant forall k :: 0 <= k < i ==>
                    workingBuffer[historyOffset + k] == Cs16ToComplex(input[2 * k], input[2 * k + 1])
        modifies workingBuffer
      {
        workingBuffer[i + historyOffset] := Cs16ToComplex(input[2 * i], input[2 * i + 1]);
      }
      ghost var x := Cs16Samples(input);
      assert workingBuffer[historyOffset..historyOffset + n] == x;
      produced := Process(build, n, x);
    }
  }

  lemma PrefixSlice(a: array<Complex>, w: seq<Complex>, i: nat, j: nat)
    requires |w| <= a.Length && a[..|w|] == w && i <= j <= |w|
    ensures a[i..j] == w[i..j]
  {
    assert a[..|w|][i..j] == a[i..j];
  }

  /** Creation once the phase increment is known. */
  method CreateWith(decimation: nat, taps: seq<real>, z: Complex, phaseIncr: Complex, maxInput: nat,
                    baseAddress: nat, hypot: (real, real) -> real)
    returns (filter: Filter)
    requires 0 < decimation && taps != [] && IsUnit(phaseIncr) && baseAddress % ALIGNMENT == 0
    requires forall re, im :: re * re + im * im == 1.0 ==> hypot(re, im) == 1.0
    ensures filter.Built() && (filter.Valid() <==> decimation <= |taps|)
    ensures fresh(filter) && fresh(filter.workingBuffer) && fresh(filter.output)
    ensures filter.Kernel() == Cf32Kernel(Swapped(BandPass(taps, z)), decimation, phaseIncr)
    ensures filter.taps == Swapped(BandPass(taps, z)) && filter.maxInput == maxInput
    ensures filter.History() == Zeros(|taps| - 1) && filter.phase == ONE
  {
    hide BandPass, Swapped, AlignedCopy;
    var bpfTaps := PrepareTaps(taps, z);
    var copies := CreateAlignedTaps(bpfTaps, COPIES);
    var workingBuffer := new Complex[maxInput / 2 + (|taps| - 1)](_ => ZERO);
    var output := new Complex[maxInput / 2 / decimation + 1](_ => ZERO);
    filter := new Filter(bpfTaps, copies, decimation, phaseIncr, maxInput, workingBuffer, baseAddress, output, hypot);
  }

  /**
   Creation of a filter for low-pass taps to be moved to the frequency whose rotation per sample is
   the unit `z`, so that `cexpf(i * fwT0 * I)` is the i-th power of `z` and the phase increment its
   `decimation`-th inverse power. The filter is fit for calls exactly when the decimation is at most
   the number of taps. No taps at all is the one error.
   */
  method Create(decimation: nat, taps: seq<real>, z: Complex, maxInput: nat, baseAddress: nat,
                hypot: (real, real) -> real)
    returns (code: int, filter: Filter?)
    requires 0 < decimation
    requires IsUnit(z) && baseAddress % ALIGNMENT == 0
    requires forall re, im :: re * re + im * im == 1.0 ==> hypot(re, im) == 1.0
    ensures code == (if taps == [] then -1 else 0)
    ensures filter == null <==> code != 0
    ensures filter != null ==>
              && filter.Built() && (filter.Valid() <==> decimation <= |taps|)
              && fresh(filter) && fresh(filter.workingBuffer) && fresh(filter.output)
              && filter.Kernel() == Cf32Kernel(Swapped(BandPass(taps, z)), decimation, Pow(Conj(z), decimation))
              && filter.taps == Swapped(BandPass(taps, z)) && filter.maxInput == maxInput
              && filter.History() == Zeros(|taps| - 1) && filter.phase == ONE
  {
    if taps == [] {
      return -1, null;
    }
    UnitTimesConj(z);
    UnitPow(Conj(z), decimation);
    filter := CreateWith(decimation, taps, z, Pow(Conj(z), decimation), maxInput, baseAddress, hypot);
    code := 0;
  }
}
