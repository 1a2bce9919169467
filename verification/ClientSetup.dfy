/** The parameters of a client's worker, as they follow from its request and the configuration. */
module ClientSetup {
  import opened Admission
  import opened ComplexNumbers
  import opened LowPassDesign
  import opened MachineInts
  import opened WorkerSpec

  datatype ServerConfig = ServerConfig(
    bandRate: uint32, bufferSize: nat, queueSize: nat, lpfCutoffRate: nat,
    sdr: SdrType)

  /**
   The mathematical functions used: sine ratio for a cutoff and a rate, cosine of a window of a given
   length, the rotation per sample for a frequency offset at a rate, and the magnitude of a complex
   number.
   */
  datatype MathLib = MathLib(
    ratio: (nat, nat) -> int -> real, cosine: nat -> int -> real,
    rotation: (int, nat) -> Complex, hypot: (real, real) -> real)

  function Taps(r: Request, c: ServerConfig): nat
    requires r.samplingRate > 0 && c.lpfCutoffRate > 0 && TransitionWidth(r, c.lpfCutoffRate) > 0
  {
    ComputeNtaps(c.bandRate as nat, TransitionWidth(r, c.lpfCutoffRate))
  }

  /**
   The numbers of the filter design: a cutoff at half the requested rate, a transition width of one
   `lpfCutoffRate`th of it, both rounded down, and the tap count for that width.
   */
  ghost predicate DesignNumbers(r: Request, c: ServerConfig, cutoff: nat, width: nat, ntaps: nat) {
    && 2 * cutoff <= r.samplingRate as int < 2 * cutoff + 2
    && 0 < width && width * c.lpfCutoffRate <= r.samplingRate as int < (width + 1) * c.lpfCutoffRate
    && IsTapCount(ntaps, c.bandRate as nat, width)
  }

  lemma TheseNumbers(r: Request, c: ServerConfig)
    requires r.samplingRate > 0 && c.lpfCutoffRate > 0 && TransitionWidth(r, c.lpfCutoffRate) > 0
    ensures DesignNumbers(r, c, Cutoff(r), TransitionWidth(r, c.lpfCutoffRate), Taps(r, c))
  {
    QuotientBetween(r.samplingRate as nat, c.lpfCutoffRate);
    NtapsIsTapCount(c.bandRate as nat, TransitionWidth(r, c.lpfCutoffRate), Taps(r, c));
  }

  /** The distance from the band's centre to the client's, as far as an int32 holds it. */
  ghost predicate IsOffset(r: Request, offset: int) {
    var exact := r.centerFreq as int - r.bandFreq as int;
    && -0x8000_0000 <= offset < 0x8000_0000 && (offset - exact) % WRAP == 0
  }

  lemma ThisOffset(r: Request)
    ensures IsOffset(r, Offset(r))
  {
    var exact := r.centerFreq as int - r.bandFreq as int;
    assert exact == (exact + 0x8000_0000) / WRAP * WRAP + Offset(r);
    if exact < -0x8000_0000 {
      assert Offset(r) == exact + WRAP;
    } else if exact >= 0x8000_0000 {
      assert Offset(r) == exact - WRAP;
    } else {
      assert Offset(r) == exact;
    }
  }

  /** What is true of sine, cosine, rotation and hypot, and a design whose taps do not cancel out. */
  ghost predicate Sound(m: MathLib, r: Request, c: ServerConfig) {
    && (forall cutoff: nat, width: nat, ntaps: nat :: DesignNumbers(r, c, cutoff, width, ntaps) ==>
          SoundDesign(ntaps, m.ratio(cutoff, c.bandRate as nat), m.cosine(ntaps)))
    && (forall offset :: IsOffset(r, offset) ==> IsUnit(m.rotation(offset, c.bandRate as nat)))
    && (forall re, im :: re * re + im * im == 1.0 ==> m.hypot(re, im) == 1.0)
  }

  function DestinationOf(r: Request): Destination {
    if r.destination == DESTINATION_FILE then File else Socket
  }

  /** The low-pass taps are those of a design with these numbers and unit gain. */
  ghost predicate TapsFit(taps: seq<real>, r: Request, c: ServerConfig, m: MathLib) {
    exists cutoff: nat, width: nat, ntaps: nat :: DesignNumbers(r, c, cutoff, width, ntaps)
      && var ratio, cosine := m.ratio(cutoff, c.bandRate as nat), m.cosine(ntaps);
      SoundDesign(ntaps, ratio, cosine) && taps == LowPassTaps(1.0, ntaps, ratio, cosine)
  }

  /**
   The worker's parameters are those of the request: the exact decimation, the rotation by the offset,
   the taps, and a file or the socket as destination.
   */
  ghost predicate Fits(setup: Setup, r: Request, c: ServerConfig, m: MathLib) {
    && ValidSetup(setup) && setup.sdr == c.sdr && setup.queueSize == c.queueSize
    && (r.destination == 0 ==> setup.destination == File)
    && (r.destination == 1 ==> setup.destination == Socket)
    && setup.decimation * r.samplingRate as nat == c.bandRate as nat
    && (exists offset :: IsOffset(r, offset) && setup.z == m.rotation(offset, c.bandRate as nat))
    && (!OnlyRequestWraps(r, c.bandRate) ==>
          setup.z == m.rotation(r.centerFreq as int - r.bandFreq as int, c.bandRate as nat))
    && TapsFit(setup.taps, r, c, m)
  }

  lemma SetupFits(r: Request, c: ServerConfig, m: MathLib, taps: seq<real>)
    requires Accepted(r, c.bandRate) && c.lpfCutoffRate > 0 && c.queueSize >= 2 && Sound(m, r, c)
    requires SanityCheck(c.bandRate as nat, Cutoff(r), TransitionWidth(r, c.lpfCutoffRate)) == 0
    requires var ratio, cosine := m.ratio(Cutoff(r), c.bandRate as nat), m.cosine(Taps(r, c));
             SoundDesign(Taps(r, c), ratio, cosine) && taps == LowPassTaps(1.0, Taps(r, c), ratio, cosine)
    ensures Fits(Setup(c.sdr, taps, m.rotation(Offset(r), c.bandRate as nat), Decimation(r, c.bandRate), c.queueSize,
                       DestinationOf(r)),
                 r, c, m)
  {
    AcceptedRequestFitsFilter(r, c.bandRate, c.lpfCutoffRate);
    AcceptedIsInBand(r, c.bandRate);
    TheseNumbers(r, c);
    ThisOffset(r);
    hide SoundDesign, LowPassTaps, DesignNumbers, IsOffset;
    hide Accepted, Offset, SanityCheck, ComputeNtaps, OnlyRequestWraps;
    assert TapsFit(taps, r, c, m);
  }

  /** What a client is served with: its request passed the checks, and the setup is the one for it. */
  ghost predicate Admitted(r: Request, setup: Setup, c: ServerConfig, m: MathLib) {
    Accepted(r, c.bandRate) && r.samplingRate > 0 && c.lpfCutoffRate > 0 && Fits(setup, r, c, m)
  }
}
