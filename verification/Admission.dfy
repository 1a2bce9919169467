/**
 Admission of a request: the checks on its numbers, which are computed in uint32 and may wrap, and
 what they establish about the filter that is set up for the client.
 */
module Admission {
  import opened Arithmetic
  import opened FixedPoint
  import opened LowPassDesign
  import opened MachineInts

  const DESTINATION_FILE: uint8 := 0
  const DESTINATION_SOCKET: uint8 := 1
  const WRAP: int := 0x1_0000_0000

  datatype Request = Request(centerFreq: uint32, samplingRate: uint32, bandFreq: uint32, destination: uint8)

  function Add32(a: uint32, b: uint32): uint32 {
    ((a as int + b as int) % WRAP) as uint32
  }

  function Sub32(a: uint32, b: uint32): uint32 {
    ((a as int - b as int) % WRAP) as uint32
  }

  /** The divisibility check made while reading the request. */
  function ReadClientConfig(r: Request, bandRate: uint32): int {
    if r.samplingRate > 0 && bandRate % r.samplingRate != 0 then -1 else 0
  }

  function ValidateClientConfig(r: Request, bandRate: uint32): int {
    if r.centerFreq == 0 then -1
    else if r.samplingRate == 0 then -1
    else if r.bandFreq == 0 then -1
    else if r.destination != DESTINATION_FILE && r.destination != DESTINATION_SOCKET then -1
    else if Sub32(r.centerFreq, r.samplingRate / 2) < Sub32(r.bandFreq, bandRate / 2) then -1
    else if Add32(r.centerFreq, r.samplingRate / 2) > Add32(r.bandFreq, bandRate / 2) then -1
    else 0
  }

  predicate Accepted(r: Request, bandRate: uint32) {
    ReadClientConfig(r, bandRate) == 0 && ValidateClientConfig(r, bandRate) == 0
  }

  /** Nothing is missing and the destination is known. */
  predicate Complete(r: Request) {
    && r.centerFreq != 0 && r.samplingRate != 0 && r.bandFreq != 0
    && (r.destination == DESTINATION_FILE || r.destination == DESTINATION_SOCKET)
  }

  /** The requested band lies inside the server's band. */
  predicate InBand(r: Request, bandRate: uint32) {
    && r.centerFreq as int - r.samplingRate as int / 2 >= r.bandFreq as int - bandRate as int / 2
    && r.centerFreq as int + r.samplingRate as int / 2 <= r.bandFreq as int + bandRate as int / 2
  }

  /** An edge of the requested band wraps around uint32 although the server's does not. */
  predicate OnlyRequestWraps(r: Request, bandRate: uint32) {
    || (r.centerFreq < r.samplingRate / 2 && r.bandFreq >= bandRate / 2)
    || (r.centerFreq as int + r.samplingRate as int / 2 >= WRAP && r.bandFreq as int + bandRate as int / 2 < WRAP)
  }

  /** An edge of the server's band wraps around uint32 although the requested one does not. */
  predicate OnlyServerWraps(r: Request, bandRate: uint32) {
    || (r.bandFreq < bandRate / 2 && r.centerFreq >= r.samplingRate / 2)
    || (r.bandFreq as int + bandRate as int / 2 >= WRAP && r.centerFreq as int + r.samplingRate as int / 2 < WRAP)
  }

  lemma Sub32Is(a: uint32, b: uint32)
    ensures Sub32(a, b) as int == if a < b then a as int - b as int + WRAP else a as int - b as int
  {
  }

  lemma Add32Is(a: uint32, b: uint32)
    ensures var s := a as int + b as int;
            Add32(a, b) as int == if s >= WRAP then s - WRAP else s
  {
  }

  /**
   The checks promise that an accepted request is complete, has a rate that divides the server's, and
   lies in the band. They keep the last promise exactly when no edge of the request wraps around
   where the server's edge does not.
   */
  lemma AcceptedIsInBand(r: Request, bandRate: uint32)
    requires Accepted(r, bandRate)
    ensures Complete(r) && bandRate % r.samplingRate == 0
    ensures InBand(r, bandRate) <==> !OnlyRequestWraps(r, bandRate)
  {
    Sub32Is(r.centerFreq, r.samplingRate / 2);
    Sub32Is(r.bandFreq, bandRate / 2);
    Add32Is(r.centerFreq, r.samplingRate / 2);
    Add32Is(r.bandFreq, bandRate / 2);
  }

  /** A complete request with a fitting rate that lies in the band is accepted unless only the server's edge wraps. */
  lemma InBandIsAccepted(r: Request, bandRate: uint32)
    requires Complete(r) && bandRate % r.samplingRate == 0 && InBand(r, bandRate)
    ensures Accepted(r, bandRate) <==> !OnlyServerWraps(r, bandRate)
  {
    Sub32Is(r.centerFreq, r.samplingRate / 2);
    Sub32Is(r.bandFreq, bandRate / 2);
    Add32Is(r.centerFreq, r.samplingRate / 2);
    Add32Is(r.bandFreq, bandRate / 2);
  }

  /** A request at 10 kHz is accepted by a server around 1 GHz. */
  lemma OutOfBandAccepted()
    ensures var r := Request(10_000, 48_000, 1_000_000_000, DESTINATION_SOCKET);
            Accepted(r, 2_016_000) && !InBand(r, 2_016_000)
  {
  }

  /** A request in the middle of a server's band at 500 kHz is refused. */
  lemma InBandRefused()
    ensures var r := Request(500_000, 48_000, 500_000, DESTINATION_SOCKET);
            Complete(r) && 2_016_000 % r.samplingRate == 0 && InBand(r, 2_016_000) && !Accepted(r, 2_016_000)
  {
  }

  // ---- Filter parameters derived from a request ----

  function Decimation(r: Request, bandRate: uint32): nat
    requires r.samplingRate > 0
  {
    FloorDiv(bandRate as nat, r.samplingRate as nat)
  }

  /** The offset is computed in int64 and passed as int32. */
  function Offset(r: Request): int {
    Narrow32(r.centerFreq as int - r.bandFreq as int)
  }

  function Cutoff(r: Request): nat {
    r.samplingRate as nat / 2
  }

  function TransitionWidth(r: Request, lpfCutoffRate: nat): nat
    requires lpfCutoffRate > 0
  {
    FloorDiv(r.samplingRate as nat, lpfCutoffRate)
  }

  /**
   What the filter needs follows from admission: the decimation divides the rate exactly and the tap
   count is odd and at least twice the decimation. Unless the request's edges wrap around, narrowing
   the offset loses nothing and the requested band lies within half the server's rate.
   */
  lemma AcceptedRequestFitsFilter(r: Request, bandRate: uint32, lpfCutoffRate: nat)
    requires Accepted(r, bandRate) && lpfCutoffRate > 0
    requires SanityCheck(bandRate as nat, Cutoff(r), TransitionWidth(r, lpfCutoffRate)) == 0
    ensures var d := Decimation(r, bandRate);
            var n := ComputeNtaps(bandRate as nat, TransitionWidth(r, lpfCutoffRate));
            var offset := r.centerFreq as int - r.bandFreq as int;
            && d >= 1 && d * r.samplingRate as nat == bandRate as nat
            && n % 2 == 1 && n >= 2 * d
            && (!OnlyRequestWraps(r, bandRate) ==>
                  && Offset(r) == offset
                  && (if offset < 0 then -offset else offset) + r.samplingRate as int / 2 <= bandRate as int / 2)
  {
    AcceptedIsInBand(r, bandRate);
    var d, sr := Decimation(r, bandRate), r.samplingRate as nat;
    ExactQuotient(bandRate as nat, sr);
    assert d * sr == bandRate as nat;
    assert d >= 1;
    NtapsEnough(d, sr, TransitionWidth(r, lpfCutoffRate), lpfCutoffRate);
    if InBand(r, bandRate) {
      SmallOffset(r, bandRate);
    }
  }

  lemma SmallOffset(r: Request, bandRate: uint32)
    requires InBand(r, bandRate)
    ensures var offset := r.centerFreq as int - r.bandFreq as int;
            && Offset(r) == offset
            && (if offset < 0 then -offset else offset) + r.samplingRate as int / 2 <= bandRate as int / 2
  {
  }

  /** After admission the design checks fail exactly for a rate below 2 or below the cutoff rate, or no band at all. */
  lemma DesignChecksOnAccepted(r: Request, bandRate: uint32, lpfCutoffRate: nat)
    requires Accepted(r, bandRate) && lpfCutoffRate > 0
    ensures SanityCheck(bandRate as nat, Cutoff(r), TransitionWidth(r, lpfCutoffRate)) == 0
            <==> bandRate > 0 && r.samplingRate >= 2 && r.samplingRate as nat >= lpfCutoffRate
  {
    var sr := r.samplingRate as nat;
    ExactQuotient(bandRate as nat, sr);
    QuotientPositive(sr, lpfCutoffRate);
    SanityCheckIs(bandRate as nat, Cutoff(r), TransitionWidth(r, lpfCutoffRate));
    if bandRate > 0 {
      RateAtMost(bandRate as nat, sr);
    }
    HalfRate(sr, bandRate as nat);
  }

  /** A request for one sample a second is accepted, but there is no filter for it. */
  lemma AcceptedWithoutFilter(lpfCutoffRate: nat)
    requires lpfCutoffRate > 0
    ensures var r := Request(100_000_000, 1, 100_000_000, DESTINATION_SOCKET);
            && Accepted(r, 2_016_000)
            && SanityCheck(2_016_000, Cutoff(r), TransitionWidth(r, lpfCutoffRate)) != 0
  {
  }

  lemma HalfRate(sr: nat, band: nat)
    ensures sr <= band ==> 2 * (sr / 2) <= band
    ensures sr / 2 > 0 <==> sr >= 2
  {
  }

  lemma QuotientPositive(x: nat, d: nat)
    requires d > 0
    ensures FloorDiv(x, d) > 0 <==> x >= d
  {
    if x >= d {
      QuotientAtLeast(x, d, 1);
    } else {
      DivUnique(x, d, 0);
    }
  }

  lemma RateAtMost(band: nat, rate: nat)
    requires rate > 0 && band > 0 && FloorDiv(band, rate) * rate == band
    ensures rate <= band
  {
    MulMonotone(1, FloorDiv(band, rate), rate);
  }
}
