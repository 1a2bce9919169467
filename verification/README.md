# sdr-server: a verified model of the streaming path

sdr-server shares one software-defined radio between several network clients. Each client asks for a
frequency and a rate inside the band the device is tuned to and receives its part of the band,
shifted to zero and decimated. This project models that path from the admission of a client to the
stream it is sent, and proves it correct in Dafny 4.11. `dafny verify dfyconfig.toml` checks
everything.

The path has four parts, and each is modelled twice: as a specification on values, and in the form of
the C code (classes with fields, linked nodes, arrays and loops) proved against that specification.

- The frequency-translating filter (`src/xlating.c`, taps from `src/lpf.c`). `Streaming` is the plain
  sliding-window filter over a stream; chunk independence and all bounds are proved there once for
  any sample format. `XlatingCf32` (exact complex arithmetic, in its native, NEON and AVX forms, see
  `DotProducts`) and `XlatingCs16` (bit for bit in bounded integers, see `FixedPoint`) are the
  imperative filters; `Taps` is what creation does to the taps, `SampleFormats` which sample each byte
  of a device stands for. `DownConversion` proves that all this is textbook mixing, filtering and
  decimating, `Accuracy` how far the fixed-point path is from it, and `LowPassDesign` that the designed
  taps have the promised shape and gain.
- The bounded block queue (`src/queue.c`). `QueueSpec` is the abstract queue with the history of a
  run: which puts were delivered, are pending, were overwritten. `BlockQueue` is the pair of linked
  lists with a detached node. Every section under the queue's mutex is one step, so that producer and
  consumer interleave in every possible way.
- The dsp worker (`src/dsp_worker.c`). `WorkerSpec` composes queue and filter; `DspWorker` is the
  worker on the heap. `Admission` and `WorkerStart` go from a request to filter parameters.
- The clients and the device (`src/tcp_server.c`). `ServerSpec` is a step machine over the acceptor,
  the clients' threads, the shutdown thread and the device callback; every client in it owns a whole
  `WorkerSpec` worker. `TcpServer` is the linked list with its flags; each of its mutex sections makes
  exactly one step of that machine (`RegisterClient`, `ClientLeaves` and so on are the cases of
  `ServerSpec.Step`). `ServerHistory` tells a run as what can be seen of it: who was started, linked
  and left, and which blocks the device delivered in between. `ClientStream` says what each client is
  sent. `Service` puts `TcpServer` and the workers of `DspWorker` together on one heap.

The results meet in `ClientStream.ClientReceivesDownConversion`: in every run a client has the filter
that its own accepted request calls for, is fed exactly the blocks that the device delivers while it
is linked, and its worker writes exactly the down-conversion of those blocks that it takes, in order;
once the client has left these are all of them, less only those that a later delivery overwrote because
it found every block of the queue in use. A file gets all that is written. A socket gets what is written
before the server closes it (`Arrival`).
`Service.Service.DestinationHolds` is the same for the objects on the heap.

## Where the code does not keep a promise

Each of these is proved, with the exact condition under which the promise is kept where there is one.

- An even number of taps is not reversed: the swap loop exchanges the middle pair twice
  (`Taps.SwappedIsReversed`). The tap design only makes odd numbers (`LowPassDesign.NtapsEnough`).
- With a decimation above the number of taps the history length underflows
  (`Streaming.HistoryNeverUnderflows`). Admitted requests have at least twice as many taps.
- The cs16 accumulator is narrowed to int32 before it is saturated. For a given filter this wraps for
  some window exactly if the sums its taps allow leave the range of 2^46
  (`Accumulation.SaturatingAccumulation`). No filter that is created does up to 46340 taps
  (`Accumulation.CreatedFiltersExact`); one of 65539 taps does (`Accumulation.FullScaleFilter`).
- The cs16 oscillator is never normalised as the cf32 one is: its increment is cut off and every product
  rounded down, so it drifts from the exact phase, by at most 5.25 units an output
  (`Accuracy.OscillatorDrift`). `Accuracy.FixedIsClose` is the bound this leaves on every output. At an
  offset that is a multiple of the output rate, zero for one, the amplitude falls by exactly one unit an
  output, and from output 32767 on the filter yields nothing but zeros for every input
  (`Accuracy.StandingFilterFades`, `Accuracy.SilentOnceFaded`, `Accuracy.ConstantFadesAway`).
- Unsigned bytes are not quite the same signal on both paths: cs16 takes them half a step of the
  converter lower than cf32 (`SampleFormats.UnsignedAgrees`).
- The band check computes in uint32. A request whose edge wraps around is accepted although it lies
  outside the band, and one inside is refused when the server's own edge wraps
  (`Admission.AcceptedIsInBand` with `OutOfBandAccepted`, `Admission.InBandIsAccepted` with
  `InBandRefused`).
- An accepted request whose rate is below 2 or below the cutoff rate gets no filter
  (`Admission.DesignChecksOnAccepted`, `Admission.AcceptedWithoutFilter`). The code then passes its node
  to `tcp_node_destroy` (`src/tcp_server.c:327-332`), which reads the node's `dsp_worker`, a field that
  nothing has set. `Service.Service.Connect` refuses such a connection.
- A client that leaves has its socket closed before its worker is interrupted. The worker still filters
  and writes every block that is held or pending, but on the socket none of that arrives. Everything
  arrives if and only if the destination is a file or those blocks do not complete a window of the
  filter (`Arrival.LeavingArrives`); `ClientStream.LeavingLosesOutput` is a run in which nothing does.
  When the server shuts down it hangs up on its clients in the same way (`ServerSpec.HangUp`).
- Device, shutdown thread and bands are in order exactly as long as every step is safe
  (`ServerSpec.InvariantKeptIffSafe`). Two kinds of step are not: the device is started for a client
  that has already left, and a client that is not linked leaves with nobody running and no shutdown
  thread. The first happens when a client leaves before the acceptor has linked it
  (`ServerSpec.EarlyLeaveStrandsDevice`), the second also after a device that fails to start
  (`ServerSpec.FailedStartCanLockUp`). Either way acceptor and shutdown thread then race for the mutex.
  If the acceptor is first it joins, holding the mutex, a thread that needs the mutex, and the server
  never serves, feeds or releases a client again (`ServerSpec.RaceIsOpen`, `ServerSpec.DeadlockedForever`;
  `ServerSpec.LocksUpExactly` has the exact condition). If it is not, a device started for a client that
  has left is never stopped; the repository's README promises that the device stops when the last
  client disconnects. `ServerSpec.EveryReachableStateInOrder` assumes that devices start and that
  clients leave only after they were linked or turned away (`ServerSpec.Assumed`);
  `ClientStream.ClientReceivesDownConversion` assumes neither.
- The new band is recorded before the old device run has ended (`ServerSpec.DeviceTuned`,
  `ServerSpec.StaleTuning`).
- The repository's README lists MSi devices as supported; the worker's loop has no filter call for
  them, so their clients receive nothing (`WorkerSpec.DeviceServed`, `WorkerSpec.MsiWritesNothing`).

## Model

| member | source | states |
|---|---|---|
| `Taps.SwapInPlace` | src/xlating.c:529-534 | the in-place swap loop leaves `Swapped`: every pair exchanged, except that for an even length the middle pair is exchanged back |
| `Taps.SwappedIsReversed` | src/xlating.c:529-534 | the taps come out reversed if and only if their number is odd (or zero) or the two middle taps are equal |
| `Taps.PrepareTaps` | src/xlating.c:519-534 | the prepared taps are the low-pass taps times the powers of the rotation, then swapped |
| `Taps.CreateAlignedTaps` | src/xlating.c:466-475 | copy `i` holds the taps behind `i` zeros, and zeros up to the common length |
| `Taps.AlignIndexCf32` | src/xlating.c:61-64 | for every window start the address is rounded down by less than four samples, and the copy chosen is that number of samples |
| `Taps.AlignIndexCs16` | src/xlating.c:101-104 | on the cs16 path the address is never moved, so only copy 0 is used |
| `Taps.AlignedDot` | src/xlating.c:466-475 | the dot product from the rounded-down address with the matching padded copy, over all its terms, equals the dot product of the window with the taps, whatever precedes the window; the terms lie inside the copy |
| `Taps.InterleavedCopy` | src/xlating.c:479-489 | one cs16 copy holds the quantised taps interleaved at the shift and zeros elsewhere |
| `Taps.CreateInterleavedTaps` | src/xlating.c:479-489 | copy 0 of the cs16 taps is the unshifted interleaved one |
| `Taps.QuantizeIsBounded` | src/xlating.c:486-487 | a component below one is cut off towards zero by less than a unit and never becomes -32768 |
| `Taps.PreparedTapsBelowOne` | src/xlating.c:524-534 | moving taps of magnitude below one to another frequency and swapping them keeps every component below one |
| `Taps.QuantizedTapsBounded` | src/xlating.c:485-488 | hence every quantised tap component lies in [-32767, 32767] |
| `Taps.QuantizedIncrementBounded` | src/xlating.c:545-549 | cutting off the components of any unit rotation times 32767 gives an increment of squared magnitude at most 32767^2, the bound the oscillator needs |
| `Taps.IncrementIsCutOff` | src/xlating.c:544-549 | the increment is 32767 times the rotation z^-decimation, against the offset, both components cut off towards zero by less than a unit |
| `Taps.TapIsCutOff` | src/xlating.c:485-488 | a quantised tap is 32768 times the tap, real and imaginary part cut off towards zero by less than a unit |
| `DotProducts.DotShifted` | src/xlating.c:61-69 | leading zeros in the taps make the samples in front of the window irrelevant |
| `DotProducts.DotNative` | src/xlating.c:66-69 | the plain loop computes the dot product |
| `DotProducts.NeonStep` | src/xlating.c:194-222 | half a NEON round over de-interleaved lanes adds exactly the products of its four samples to the sum of the lanes |
| `DotProducts.DotNeon` | src/xlating.c:172-251 | blocks of eight, lane sums and scalar tail compute the same dot product for every length |
| `DotProducts.AvxProductsAreProducts` | src/xlating.c:298-309 | moveldup, swapped pairs, movehdup and addsub leave the four complex products in neighbouring lanes |
| `DotProducts.AvxStep` | src/xlating.c:297-312 | one AVX round adds the products of its four samples |
| `DotProducts.DotAvx` | src/xlating.c:285-336 | blocks of four, stored lanes and scalar tail compute the same dot product for every length |
| `Streaming.FilterSplits` | src/xlating.c:75-79 | splitting a stream at any point and keeping the left-over samples as history changes neither outputs, history nor phase |
| `Streaming.ChunkIndependence` | src/xlating.c:52-83 | feeding any division into blocks yields outputs, history and phase of one batch over the whole stream, for every kernel |
| `Streaming.FilterClosedForm` | src/xlating.c:53-79 | the number of outputs is the number of window positions, the history is the stream from the next position on, the phase has advanced once per output |
| `Streaming.OutputAt` | src/xlating.c:60-72 | output `i` is computed from the window at `i * decimation` and the phase after `i` steps |
| `Streaming.OutputCount` | src/xlating.c:551-568 | after `n` samples exactly ceil(n / decimation) outputs exist |
| `Streaming.OneOutputMore` | src/xlating.c:60-72 | emitting the kernel's value at the next window keeps a run on track, for any sample format |
| `Streaming.OutputRoom` | src/xlating.c:567-568 | n / decimation + 1 outputs always leave room for the next window of n positions |
| `Streaming.HistoryBounds` | src/xlating.c:53-79 | the history is always shorter than the taps, and after a producing call at least taps - decimation long |
| `Streaming.HistoryNeverUnderflows` | src/xlating.c:75-76 | the unsigned subtraction that computes the history is safe for every buffer length if and only if decimation is at most the number of taps |
| `XlatingSpec.PhaseStaysUnit` | src/xlating.c:71-73 | the exact oscillator stays on the unit circle, so the normalisation that AVX leaves out is the identity |
| `XlatingSpec.OscillatorNeverOverflows` | src/xlating.c:118-129 | in every reachable state of the fixed-point oscillator neither its update nor the rotation of any int16 accumulator leaves int32 |
| `XlatingSpec.Cs16Concat` | src/xlating.c:374-380 | samples of concatenated int16 blocks are the concatenated samples |
| `FixedPoint.ShiftIsFloor` | src/xlating.c:118-119 | the shift by 15 rounds down |
| `FixedPoint.NarrowIsCongruent` | src/xlating.c:118-119 | narrowing to int32 yields the one int32 that differs by a multiple of 2^32 |
| `FixedPoint.SaturationIsNearest` | src/xlating.c:85-90 | saturation yields a value if and only if no int16 is nearer |
| `FixedPoint.RotationFits` | src/xlating.c:121-127 | a rotation by a phase with squared magnitude at most 2 * 32767^2 fits int32 for any int16 value |
| `FixedPoint.PhaseStaysBounded` | src/xlating.c:126-129 | floor shift and saturation keep the phase within that bound for every increment of squared magnitude at most 32767^2 |
| `Accumulation.LargestIsLargest` | src/xlating.c:106-116 | no window has a larger real part than the per-tap sum of extremes |
| `Accumulation.ExtremeIsReached` | src/xlating.c:106-116 | and a window of extreme samples, silent from any sample on, reaches that sum up to there |
| `Accumulation.SaturatingAccumulation` | src/xlating.c:85-119 | for every filter with bounded taps: the accumulators of all windows are the clamp of floor(dot / 2^15) if and only if the largest real and imaginary sums that the taps allow stay below 2^46 and the smallest ones at or above -2^46 |
| `Accumulation.ShortFiltersExact` | src/xlating.c:85-119 | bounded taps of any kind are exact up to 32769 of them |
| `Accumulation.CreatedFiltersExact` | src/xlating.c:485-488 | filters created from taps below one are exact up to 46340 taps, at any offset |
| `Accumulation.FullScaleFilter` | src/xlating.c:85-119 | the filter created from n full-scale taps at zero offset is exact if and only if n is at most 65538 |
| `FixedPoint.DotBound` | src/xlating.c:106-116 | the int64 sums grow by at most one term bound per tap |
| `FixedPoint.TermFits` | src/xlating.c:114-115 | every per-tap term fits int32 |
| `XlatingCf32.Filter.constructor` | src/xlating.c:543-568 | a new filter starts with silence of taps - 1 samples as history and phase one, and is fit for calls exactly when the decimation is at most the number of taps |
| `XlatingCf32.Filter.WindowDot` | src/xlating.c:61-69 | each of the three forms, reading aligned memory and the chosen copy, computes the dot product of the window with the taps |
| `XlatingCf32.Filter.Emit` | src/xlating.c:60-72 | one pass of the loop writes the rotated accumulator and advances the phase, keeping the run over the whole buffer on track |
| `XlatingCf32.Filter.Normalize` | src/xlating.c:73 | the division by the magnitude leaves the phase as it is |
| `XlatingCf32.Filter.KeepHistory` | src/xlating.c:75-79 | the move to the front leaves exactly the samples from the next position on as history |
| `XlatingCf32.Filter.Process` | src/xlating.c:52-348 | for the native, NEON and AVX form alike a call over history and new samples yields output, history and phase of the simple sliding-window filter, inside all buffers |
| `XlatingCf32.Filter.ProcessCu8` | src/xlating.c:352-394 | the same for unsigned bytes, converted into the working buffer behind the history |
| `XlatingCf32.Filter.ProcessCs8` | src/xlating.c:364-404 | the same for signed bytes |
| `XlatingCf32.Filter.ProcessCs16` | src/xlating.c:374-414 | the same for int16 values |
| `XlatingCf32.Create` | src/xlating.c:495-582 | creation fails only without taps; otherwise the filter computes the kernel of the swapped band-pass taps with increment z^-decimation, and is fit for calls exactly when the decimation is at most the number of taps |
| `XlatingCs16.Filter.constructor` | src/xlating.c:546-568 | a new filter starts with silence as history and phase (32767, 0), and is fit for calls exactly when the decimation is at most the number of taps |
| `XlatingCs16.Filter.WindowDot` | src/xlating.c:101-116 | the int64 sums of int32 terms, read from aligned memory, are the exact dot product; nothing overflows |
| `XlatingCs16.Filter.AccumulateAt` | src/xlating.c:106-119 | shift, narrowing and saturation of both sums |
| `XlatingCs16.Filter.Emit` | src/xlating.c:100-130 | one pass of the loop stores the rotated sample interleaved and advances the oscillator |
| `XlatingCs16.Filter.Store` | src/xlating.c:121-124 | only the two positions of the new sample change, to the saturated rotation of the accumulator |
| `XlatingCs16.Filter.Advance` | src/xlating.c:126-129 | the oscillator advances by the increment and stays bounded |
| `XlatingCs16.Filter.Process` | src/xlating.c:92-140 | a call yields, bit for bit, output, history and phase of the simple fixed-point sliding-window filter |
| `XlatingCs16.Filter.ProcessCu8` | src/xlating.c:416-421 | the same for unsigned bytes shifted to int16 behind the history |
| `XlatingCs16.Filter.ProcessCs8` | src/xlating.c:423-428 | the same for signed bytes |
| `XlatingCs16.Filter.ProcessCs16` | src/xlating.c:430-435 | the same for int16 values |
| `XlatingCs16.Filter.ProcessBlocks` | test/test_xlating.c:39-61 | a caller that feeds one block after another gets, bit for bit, the output of one batch over history and all samples, and leaves the filter in its state |
| `XlatingCs16.Create` | src/xlating.c:495-582 | creation fails only without taps; otherwise the filter computes the fixed-point kernel of the quantised swapped band-pass taps and the quantised increment, and is fit for calls exactly when the decimation is at most the number of taps |
| `Accuracy.RotateClose` | src/xlating.c:121-124 | one fixed-point rotation is within 1.5 units of the exact product by the phase over 2^15, saturated |
| `Accuracy.WindowClose` | src/xlating.c:106-119 | the accumulator of n quantised taps is within 1.5 + 2.25 n units of the exact dot product with the taps themselves, saturated |
| `Accuracy.OscillatorDrift` | src/xlating.c:126-129 | after k outputs the fixed-point phase is within 5.25 k units of 32767 times the exact one |
| `Accuracy.CreatedIsSound` | src/xlating.c:485-549 | filters for low-pass taps below one meet the conditions of the next results, up to 46340 taps and at any offset |
| `Accuracy.FixedIsClose` | src/xlating.c:92-140 | output k of the fixed-point filter with n taps is within 7.875 k + 2.25 n + 4.5 units of the exact down-converted sample, saturated as the path does it, and of that sample itself if it lies inside full scale |
| `Accuracy.StandingFilterFades` | src/xlating.c:126-129 | at an offset that is a multiple of the output rate, zero included, output k is the accumulator times (32767 - k) / 32768, rounded down; from output 32767 on there are only zeros, for every input |
| `Accuracy.SilentOnceFaded` | src/xlating.c:121-129 | that phase silences every accumulator if and only if 32767 outputs have been made |
| `Accuracy.ConstantFadesAway` | src/xlating.c:118-129 | of the same constant the exact path gives the constant times the gain and the fixed-point path zero, from output 32767 on |
| `Accuracy.PathsAgree` | src/xlating.c:52-140 | for the same signal the fixed-point output is within the same bound of 32768 times the cf32 output |
| `Accuracy.SignedInput` | src/xlating.c:364-435 | both paths make the same signal of signed bytes and of int16 values |
| `DownConversion.PhaseIsPower` | src/xlating.c:543-544 | the phase after k outputs is z^-(k * decimation) |
| `DownConversion.ZeroOffsetIsOne` | src/xlating.c:524-528 | a rotation by the angle zero is multiplication by one |
| `DownConversion.PartialDot` | src/xlating.c:512-534 | the reversed band-pass taps, rotated, are the low-pass taps applied to the mixed signal |
| `DownConversion.FilterDownConverts` | src/xlating.c:512-549 | band-pass filtering, decimation and rotation equal mixing by z^-m, low-pass filtering with the original taps and keeping every decimation-th sample, for all inputs, odd tap counts and decimations up to it |
| `DownConversion.CarrierComesOut` | src/xlating.c:512-549 | a carrier of any frequency comes out at its distance from the offset, decimated, times the response of the low-pass taps at that distance |
| `DownConversion.CarrierAtOffset` | src/xlating.c:512-549 | in particular the carrier at the client's offset, and not the one mirrored to it, comes out at frequency zero times the sum of the taps |
| `DownConversion.ConstantIsScaled` | src/xlating.c:57-74 | a constant at zero offset comes out times the sum of the taps once the silence has left the window |
| `LowPassDesign.SanityCheckIs` | src/lpf.c:12-29 | the checks pass exactly for positive rate, cutoff and width and a cutoff of at most half the rate |
| `LowPassDesign.NtapsEnough` | src/lpf.c:31-38 | the tap count is odd and at least twice the decimation |
| `LowPassDesign.NtapsIsTapCount` | src/lpf.c:31-38 | a number n is the tap count if and only if it is odd and 53 rate / (22 width) is at least n - 1 and less than n + 1 |
| `LowPassDesign.CreateHammingWindow` | src/lpf.c:40-51 | the window loop fills the Hamming window |
| `LowPassDesign.HammingShape` | src/lpf.c:46-49 | the weight is 0.08 where the cosine is 1, 1 where it is -1, falls as the cosine rises, and lies in [0.08, 1] for cosines |
| `LowPassDesign.HammingPeak` | src/lpf.c:46-49 | for the cosines of a whole turn the middle weight is 1 and no other is larger, and the outermost are 0.08 |
| `LowPassDesign.DesignedShape` | src/lpf.c:71-81 | each tap is the sine ratio at its distance from the centre, whole where the cosine is -1, 0.08 of it where it is 1, and in proportion in between |
| `LowPassDesign.DesignTaps` | src/lpf.c:71-81 | the design loop fills sine ratio times window |
| `LowPassDesign.DesignedIsMirrored` | src/lpf.c:71-81 | the designed taps are symmetric around the middle |
| `LowPassDesign.OneSidedIsSum` | src/lpf.c:85-88 | adding the centre tap and twice one side gives the full sum |
| `LowPassDesign.AddOneSide` | src/lpf.c:85-88 | the loop computes that one-sided sum |
| `LowPassDesign.ScaleInPlace` | src/lpf.c:92-94 | the loop multiplies every tap by the factor |
| `LowPassDesign.CreateLowPassTaps` | src/lpf.c:71-97 | the result is the designed taps divided by their full sum, times the gain, and symmetric |
| `LowPassDesign.NormalizedTap` | src/lpf.c:85-94 | each normalised tap has the same ratio to the designed one as the gain to the sum of all |
| `LowPassDesign.LowPassTaps` | src/lpf.c:85-94 | the normalised taps sum to the gain |
| `LowPassDesign.CreateLowPassFilter` | src/lpf.c:53-99 | the checks decide the code; on success the taps are the normalised design for that cutoff, rate and width |
| `LowPassDesign.ConstantComesOutScaled` | src/lpf.c:85-94 | through design and filter a constant at zero offset comes out times the gain |
| `QueueSpec.PutAlwaysPossible` | src/queue.c:87-115 | a put finds a block to fill in every state, also while one is detached, if and only if the queue has at least two |
| `QueueSpec.PutOutcome` | src/queue.c:90-115 | a put appends its block unless every block is pending or detached; only then the last pending one is overwritten |
| `QueueSpec.TakeOutcome` | src/queue.c:133-165 | a take hands out the oldest pending block whenever there is one |
| `QueueSpec.LostExactly` | src/queue.c:90-115 | a block is lost exactly by a put that finds every block pending or detached, and it is the one put just before |
| `QueueSpec.LostOverRuns` | src/queue.c:90-115 | over every run exactly these are lost, told from how full the queue was at each put |
| `QueueSpec.LogKeepsInvariant` | src/queue.c:87-187 | every operation keeps: delivered then pending blocks are put blocks in put order, every put block is delivered, pending or overwritten, and the most recent put is the last pending one until it is taken |
| `QueueSpec.EveryRunKeepsInvariant` | src/queue.c:87-187 | the same after every run of puts, takes, completions and interrupts |
| `QueueSpec.NothingLost` | src/queue.c:90-115 | without an overwrite delivered and pending blocks are exactly the puts, in order |
| `QueueSpec.DetachedIsolated` | src/queue.c:151-163 | no number of puts and interrupts changes the block the consumer holds |
| `BlockQueue.Queue.constructor` | src/queue.c:42-85 | the chain of queue_size new nodes is the free list of an empty queue |
| `BlockQueue.CreateNodes` | src/queue.c:48-72 | the loop links that many new nodes with buffers of their own |
| `BlockQueue.Queue.NodesConserved` | src/queue.c:48-83 | free list, filled list and detached node are pairwise disjoint, without repetition, and together exactly the nodes created |
| `BlockQueue.Queue.Append` | src/queue.c:95-112 | the first free node becomes the last filled one |
| `BlockQueue.Queue.PutOver` | src/queue.c:87-119 | without a free node the block takes the place of the last pending one |
| `BlockQueue.Queue.Put` | src/queue.c:87-119 | while pending and detached blocks are fewer than the nodes the block is appended, otherwise it takes the place of the last pending one; shape, detached block and all other blocks stay |
| `BlockQueue.Queue.Take` | src/queue.c:133-165 | hands out the oldest pending block and detaches its node, so that its bytes are what the consumer then reads; closed when interrupted and empty, blocked when only empty |
| `BlockQueue.Queue.DetachedBytes` | src/queue.c:151-163 | what the consumer reads through its pointer is the detached block of the abstract queue |
| `BlockQueue.Queue.Complete` | src/queue.c:167-177 | the detached node goes to the end of the free list |
| `BlockQueue.Queue.Interrupt` | src/queue.c:179-187 | sets the poison pill and nothing else |
| `BlockQueue.Queue.Destroy` | src/queue.c:121-131 | every node created is released exactly once |
| `BlockQueue.DestroyNodes` | src/queue.c:30-40 | the loop releases a list node by node in order |
| `WorkerSpec.StepKeepsInvariant` | src/dsp_worker.c:41-88 | every put, interrupt, take, filter call and completion keeps: output, history and phase are those of one batch filter over the blocks processed so far |
| `WorkerSpec.LostAfterStep` | src/dsp_worker.c:202-204 | in a worker, too, a block is lost exactly by a put that finds every block of the queue in use |
| `WorkerSpec.TurnServesOldest` | src/dsp_worker.c:49-83 | with a block pending one turn of the loop takes the oldest, writes what the filter makes of its samples and is ready for the next |
| `WorkerSpec.WrittenIsDownConversion` | src/dsp_worker.c:41-88 | after any interleaving of puts with the worker's loop the output is the down-conversion of exactly the blocks taken, which are put blocks in put order |
| `WorkerSpec.DrainDeliversEverything` | src/dsp_worker.c:49-54 | after the interrupt the loop takes every pending block in order, then ends; nothing more is overwritten |
| `WorkerSpec.DestroyedHasDelivered` | src/dsp_worker.c:172-184 | interrupt and join leave nothing pending |
| `WorkerSpec.NothingLostMeansEverythingWritten` | src/dsp_worker.c:41-88 | a drained worker whose queue never overflowed has written the down-conversion of the whole produced stream |
| `WorkerSpec.StreamOfWholeSamples` | src/dsp_worker.c:55-72 | blocks of whole samples carry the samples of all their bytes in one piece |
| `WorkerSpec.MsiWritesNothing` | src/dsp_worker.c:55-72 | for a device type without a filter call nothing is ever written, in any run |
| `WorkerSpec.DeviceServed` | src/dsp_worker.c:55-72 | the output is the down-conversion of the samples the device delivered if and only if the loop has a filter call for the device type or there was no sample |
| `SampleFormats.RtlSample` | src/xlating.c:352-362 | for RTL devices I comes from the even byte alone and Q from the odd one, as twice the byte less 255, over 256 |
| `SampleFormats.RtlIncreasing` | src/xlating.c:352-362 | a larger byte stands for a larger component |
| `SampleFormats.RtlMirrored` | src/xlating.c:352-362 | bytes mirrored around 127.5 stand for the negated samples |
| `SampleFormats.HackRfSample` | src/dsp_worker.c:56-59 | for HackRF devices the bytes are signed 1/128ths, I before Q |
| `SampleFormats.AirspySample` | src/dsp_worker.c:64-67 | for Airspy devices pairs of bytes are signed little-endian 1/32768ths, I before Q |
| `SampleFormats.SignedAgrees` | src/xlating.c:423-428 | the fixed-point path makes of signed bytes 32768 times what the exact path does |
| `SampleFormats.Int16Agrees` | src/xlating.c:430-435 | the same for int16 values |
| `SampleFormats.UnsignedAgrees` | src/xlating.c:416-421 | for unsigned bytes it is half a step of the converter lower |
| `WorkerSpec.DisconnectedHasDelivered` | src/tcp_server.c:236-251 | closing the socket, interrupt and join: every pending block is still filtered and written, nothing of that arrives on a socket |
| `Arrival.WrittenSince` | src/dsp_worker.c:55-81 | what is written between two states of a worker is the filter output, from where the first one left off, for the blocks processed in between |
| `Arrival.SameWrittenIffSilent` | src/dsp_worker.c:55-81 | that is nothing if and only if the history and the samples of these blocks do not complete a window |
| `Arrival.ArrivesUntilClosed` | src/dsp_worker.c:73-85 | in a file all output arrives, on a socket what was written before it was closed; that is everything if and only if the destination is a file or the blocks processed since complete no window |
| `Arrival.LeavingArrives` | src/tcp_server.c:236-251 | for a client that leaves everything arrives if and only if its destination is a file or the blocks held or pending at that moment complete no window |
| `DspWorker.Worker.constructor` | src/dsp_worker.c:90-170 | queue and filter put together are the worker's initial state |
| `DspWorker.Worker.Deliver` | src/dsp_worker.c:202-204 | a block from the device changes the queue only, whatever the loop is doing |
| `DspWorker.Worker.TakeBlock` | src/dsp_worker.c:50-54 | the take step of the abstract worker |
| `DspWorker.Worker.RunFilter` | src/dsp_worker.c:55-72 | the filter call for the device type, over the samples the block carries for that type |
| `DspWorker.Worker.ProcessBlock` | src/dsp_worker.c:55-81 | the detached block, read through its node, is filtered and all output written; it is appended to the file, or to what the socket has delivered if that is still open |
| `DspWorker.Worker.CompleteBlock` | src/dsp_worker.c:82 | the completion step |
| `DspWorker.Worker.Turn` | src/dsp_worker.c:49-86 | one turn of the loop after the interrupt: ends when the queue is empty, otherwise serves one block and makes progress |
| `DspWorker.Worker.Finish` | src/dsp_worker.c:172-184 | the rest of the loop after the interrupt, wherever the interrupt finds it, reaches the abstract drained state |
| `DspWorker.Worker.Receive` | src/dsp_worker.c:202-204 | a delivered block is the put step of the abstract worker |
| `DspWorker.Worker.Act` | src/dsp_worker.c:49-86 | take, filter call or completion is the next step of the abstract worker, and the loop goes on where that is |
| `DspWorker.Worker.Destroy` | src/dsp_worker.c:172-184 | interrupt and join take the worker to the abstract destroyed one |
| `DspWorker.Worker.HangUp` | src/tcp_server.c:440 | closing the socket is the close step of the abstract worker, whatever the loop is doing |
| `DspWorker.Worker.Disconnect` | src/tcp_server.c:236-251 | close, interrupt and join take the worker to the abstract disconnected one |
| `WorkerStart.Launch` | src/dsp_worker.c:104-168 | filter, queue and worker created together are valid and in the initial state |
| `WorkerStart.Start` | src/dsp_worker.c:90-170 | an accepted request fails only for a rate below 2 or below the cutoff rate, or a server without band rate; otherwise the worker has the normalised taps of the design for a cutoff c with 2 c <= rate < 2 c + 2, decimation * rate = band rate, the offset of the request, and the file for destination 0, the socket for destination 1 |
| `Admission.AcceptedIsInBand` | src/tcp_server.c:101-141 | an accepted request is complete with a dividing rate, and lies in the server's band if and only if no edge of it wraps around uint32 where the server's edge does not |
| `Admission.InBandIsAccepted` | src/tcp_server.c:101-141 | a complete request with a dividing rate that lies in the band is accepted if and only if no edge of the server's band wraps where the request's does not |
| `Admission.OutOfBandAccepted` | src/tcp_server.c:128-139 | a request at 10 kHz is accepted by a server at 1 GHz |
| `Admission.InBandRefused` | src/tcp_server.c:128-133 | a request in the middle of a band at 500 kHz is refused |
| `Admission.AcceptedWithoutFilter` | src/tcp_server.c:327-332 | a request for one sample a second is accepted, but no filter can be designed for it |
| `Admission.AcceptedRequestFitsFilter` | src/dsp_worker.c:98-104 | decimation * rate = band rate, the tap count is odd and at least twice the decimation; without wrap-around the narrowed offset is exact and the requested band lies within half the band rate |
| `Admission.DesignChecksOnAccepted` | src/lpf.c:12-29 | after admission the design checks pass exactly for a server with a band and a rate of at least 2 and at least the cutoff rate |
| `ClientSetup.TheseNumbers` | src/dsp_worker.c:98 | the design gets a cutoff of half the requested rate, a width of one lpf_cutoff_rate-th of it, both rounded down, and the tap count for that width |
| `ClientSetup.ThisOffset` | src/dsp_worker.c:104 | the offset is the client's frequency less the band's, as far as an int32 holds it |
| `ClientSetup.SetupFits` | src/dsp_worker.c:90-111 | the setup made from an accepted request has that design, the rotation by the request's offset, the exact decimation, and the file for destination 0 and the socket for destination 1 |
| `ServerSpec.RunningFacts` | src/tcp_server.c:281-299 | cleanup keeps exactly running clients, and none if and only if none runs |
| `ServerSpec.RunningJoins` | src/tcp_server.c:281-299 | cleanup looks at each client for itself and keeps their order: of a single one it keeps it exactly if it runs |
| `ServerSpec.ConnectionOutcomes` | src/tcp_server.c:313-325 | every connection takes the next number, also one that is not served, and no other step does; a new client has its connection's number, the band it asked for and a worker that has not begun |
| `ServerSpec.RegistrationOutcomes` | src/tcp_server.c:341-374 | what a registration does to the whole server: linked or turned away beside running clients, else the wait, the stuck join, or the device started or not; nothing else changes |
| `ServerSpec.LeavingOutcome` | src/tcp_server.c:232-250 | what a linked client's leaving does: only this client stops, and a shutdown thread is created exactly if no other runs and there is none |
| `ServerSpec.ControlStep` | src/tcp_server.c:191-466 | from a state whose device, shutdown thread and bands are in order a step leads to such a state if and only if it is safe: the device does not start for a client that has left, and an unlinked client leaves only while another runs or a shutdown thread exists |
| `ServerSpec.InvariantKeptIffSafe` | src/tcp_server.c:191-466 | the same with the workers: running clients need the device on and no shutdown thread, a device on without running clients needs a shutdown thread under way, all linked clients share the band, a client runs exactly while its worker is alive |
| `ServerSpec.AssumedIsSafe` | src/tcp_server.c:301-384 | steps are safe when devices start and clients leave only after they were linked or turned away |
| `ServerSpec.EveryReachableStateInOrder` | src/tcp_server.c:191-466 | under these assumptions every reachable state is in order; the acceptor never joins, holding the mutex, a shutdown thread that still needs it, and never is about to |
| `ServerSpec.WaitHasReleaser` | src/tcp_server.c:343-347 | whenever the acceptor waits for the device, a shutdown thread is under way whose next step is enabled |
| `ServerSpec.WaitProgresses` | src/tcp_server.c:343-347 | steps of the shutdown thread bring the wait closer to its end and no other step prolongs it |
| `ServerSpec.WaitEndsWithDeviceOn` | src/tcp_server.c:345-356 | after the wait the newcomer is linked and the device on and tuned to its band |
| `ServerSpec.DeviceTuned` | src/tcp_server.c:343-356 | a tuned device that is on stays tuned to the recorded band over every safe step, if and only if the step is not a registration with no client kept, the device still on and another band asked for |
| `ServerSpec.RunningClientsTuned` | src/tcp_server.c:257-271 | in every run under these assumptions, while any linked client runs the device is on and tuned to the band of all of them |
| `ServerSpec.OtherBandTurnedAway` | src/tcp_server.c:357-373 | while clients run, a newcomer is turned away exactly if it asks for another band, and linked exactly if it asks for the same |
| `ServerSpec.DeliveredToRunning` | src/tcp_server.c:257-271 | a device block is put into the queue of exactly the running clients |
| `ServerSpec.NothingElseFeeds` | src/tcp_server.c:257-271 | after any other step every client was there before, with the same number, band, setup and puts |
| `ServerSpec.LocksUpExactly` | src/tcp_server.c:348-351 | the acceptor comes to join a thread that needs the mutex exactly by registering, resuming or draining in a state where the device has stopped and that thread has not finished |
| `ServerSpec.LockUpPossible` | src/tcp_server.c:348-351 | and in every such state it can |
| `ServerSpec.DeadlockedForever` | src/tcp_server.c:348-351 | then, in every run from there, no section under the mutex is entered again: nobody is linked, leaves or is fed, and no connection is served |
| `ServerSpec.RaceIsOpen` | src/tcp_server.c:196-200 | with an unfinished shutdown thread for a stopped device the next registration either ends in that deadlock or, if the thread gets the mutex first, links the client and starts the device |
| `ServerSpec.EarlyLeaveStrandsDevice` | src/tcp_server.c:232-253 | a client that leaves before it is linked opens this race: a deadlock for good, or a device on with no client and no shutdown thread |
| `ServerSpec.FailedStartCanLockUp` | src/tcp_server.c:352-381 | a device that does not start, at first or after a wait: the client turned away leaves, a shutdown thread for a stopped device is created, and the next client opens this race |
| `ServerSpec.FirstStartFails` | src/tcp_server.c:352-381 | in particular for the first client of a new server |
| `ServerSpec.StaleTuning` | src/tcp_server.c:343-347 | between registration and the end of the wait the device is still tuned to the previous band |
| `ServerHistory.StepRecorded` | src/tcp_server.c:191-466 | every step takes each client to where it would be if it were alone: fed exactly by deliveries between its linking and leaving, moved only by its own steps |
| `ServerHistory.RunRecorded` | src/tcp_server.c:191-466 | and so does every run, whatever happens in it |
| `ServerHistory.ReceivedIsWindow` | src/tcp_server.c:257-271 | what a client that was linked and left has received are the deliveries in between |
| `ServerHistory.EverythingSince` | src/tcp_server.c:257-271 | what a linked client has received are the deliveries since |
| `ServerHistory.LossesTold` | src/queue.c:90-115 | what a client's queue has overwritten can be read off the story: the puts that found all its blocks in use |
| `ServerHistory.LifeTold` | src/tcp_server.c:257-271 | a client's puts are what it received, and it runs exactly until its leaving |
| `ServerHistory.StartTold` | src/tcp_server.c:313-334 | a client's request and setup are those it was started with |
| `ClientStream.SocketTold` | src/tcp_server.c:236 | a client's socket is open until the acceptor hangs up on it or the client leaves, and its worker goes on from where it then was |
| `ClientStream.LeftTold` | src/tcp_server.c:232-254 | unless the acceptor hung up on it, a client that has left is exactly where its leaving put it |
| `ClientStream.ClientReceivesDownConversion` | src/tcp_server.c:191-466 | from request to stream over all runs: every client has the setup that fits its own accepted request, was fed exactly the blocks delivered while it was linked, and its worker has written exactly the down-conversion of those it took, in order; after leaving, of all of them less those that were overwritten because a later delivery found all blocks of its queue in use, as the story has it. For destination 0 all of this has arrived; for destination 1 what was written before the socket was closed, which is all of it exactly if the later blocks (at a leaving: those held or pending) complete no window |
| `ClientStream.LeavingLosesOutput` | src/tcp_server.c:236-251 | a run in which a socket client leaves before its one block is taken: the block is down-converted and nothing arrives |
| `TcpServer.TcpServer.constructor` | src/tcp_server.c:468-493 | a new server has no clients, no shutdown thread and a stopped device |
| `TcpServer.TcpServer.Refuse` | src/tcp_server.c:405-418 | a connection that is not served gets a number all the same |
| `TcpServer.TcpServer.Unlink` | src/tcp_server.c:291-295 | takes one node out of the linked list |
| `TcpServer.TcpServer.Sweep` | src/tcp_server.c:281-299 | the loop leaves exactly the running nodes linked, in order |
| `TcpServer.KeptClients` | src/tcp_server.c:281-299 | unlinking nodes that do not run is what cleanup does to the abstract clients |
| `TcpServer.TcpServer.Cleanup` | src/tcp_server.c:281-299 | the cleanup of the abstract server |
| `TcpServer.TcpServer.Append` | src/tcp_server.c:368-372 | the walk to the last node links the newcomer behind all others |
| `TcpServer.TcpServer.SomeoneRuns` | src/tcp_server.c:233-244 | the scan finds out whether any linked client runs |
| `TcpServer.TcpServer.Start` | src/tcp_server.c:313-325 | the node of a new client is created under the next number and held, not linked |
| `TcpServer.TcpServer.StartDevice` | src/tcp_server.c:348-356 | joins the shutdown thread, starts the device and links the first client; a join that cannot return leaves the acceptor in it |
| `TcpServer.TcpServer.Register` | src/tcp_server.c:341-374 | the registration step of the abstract server: cleanup, then first client, wait, rejection or append |
| `TcpServer.TcpServer.Resume` | src/tcp_server.c:348-356 | the step after the wait |
| `TcpServer.TcpServer.StopDeviceIfUnused` | src/tcp_server.c:233-250 | creates a shutdown thread if and only if no linked client runs and none exists |
| `TcpServer.TcpServer.Exit` | src/tcp_server.c:232-250 | the list side of the exit step of a linked client: no longer running, the device stopped if unused |
| `TcpServer.TcpServer.ExitNewcomer` | src/tcp_server.c:232-250 | the same for a client the acceptor still holds |
| `TcpServer.TcpServer.Release` | src/tcp_server.c:196-200 | the release step |
| `TcpServer.TcpServer.DrainHead` | src/tcp_server.c:437-451 | the final drain unlinks the first node |
| `TcpServer.TcpServer.DrainEnd` | src/tcp_server.c:452-458 | the end of the final drain joins the shutdown thread, or stays in the join |
| `Service.Service.constructor` | src/tcp_server.c:468-493 | a new service has no clients and no workers |
| `Service.Service.Connect` | src/tcp_server.c:301-339 | a connection becomes a client exactly if its request passes the checks and its rate allows a filter; its worker, created on the heap, starts where the machine says; any other one is refused |
| `Service.Service.Register` | src/tcp_server.c:341-374 | registration leaves all workers where they are and makes the step of the machine |
| `Service.Service.Resume` | src/tcp_server.c:348-374 | and so does the rest of it after the wait |
| `Service.Service.Deliver` | src/tcp_server.c:257-271 | the loop puts the block into the queue of the heap worker of every running node, and into no other |
| `Service.Service.FeedNode` | src/tcp_server.c:263-267 | for one node: its own worker takes the put step, all others stay |
| `Service.Service.Work` | src/dsp_worker.c:49-86 | a worker's thread makes a step on its own heap objects, and no other client changes |
| `Service.Service.WorkNewcomer` | src/dsp_worker.c:49-86 | the same for the client the acceptor holds |
| `Service.Service.Exit` | src/tcp_server.c:232-254 | the leaving client's socket is closed, its heap worker interrupted and joined, and the server makes its exit step |
| `Service.Service.ExitNewcomer` | src/tcp_server.c:232-254 | the same for the client the acceptor holds |
| `Service.Service.HangUp` | src/tcp_server.c:439-446 | draining, the acceptor shuts down the first client's socket; its worker goes on |
| `Service.Service.Quiet` | src/tcp_server.c:191-200 | the steps of the shutdown thread, of turning a client away and of the final drain leave all workers where they are and make the step of the machine |
| `Service.Service.DestinationHolds` | src/dsp_worker.c:73-81 | in every state of the service, what stands at a client's destination is what of its output has arrived, as the story of the run has it |

## Left out

- Files, gzip, `write_message`, configuration files and logging: what arrives is an appended sequence. A
  write is one step that takes everything, or nothing if the server has closed the socket. What the
  network does, a client that closes its own end, and the close after a failed write are left out.
- ClientStream.ClientReceivesDownConversion: descriptors have no numbers, so a write after the close
  goes nowhere, although the number may by then stand for another connection.
- The close of the socket of a client that is turned away: it was never linked, so nothing was written.
- The request codec, ping handling and read timeouts.
- Device drivers and library loaders: the device is off, or on and tuned to a frequency.
- `src/rtltcp_server.c`.
- IEEE rounding on the cf32 path: it is computed in exact complex numbers. `cexpf`, `sin`, `cos` and
  `hypot` are parameters of which unit modulus, symmetry and the value on unit numbers are assumed.
- Accuracy.FixedIsClose: requires filters whose sums never wrap and whose taps convert to int16, as created
  ones do up to 46340 taps. How the amplitude behaves at other offsets is bounded, not computed.
- Failed allocations and thread creation, and the release of taps, buffers and configurations.
- Mutexes, condition variables and scheduling: a section under a mutex is one step, a wait is a step
  that is not enabled, and `BlockQueue.Queue.Take` reports `Blocked` where the code waits.
- BlockQueue.Queue.Take: requires that no block is detached; the worker's loop alternates take and
  completion.
- BlockQueue.Queue.Complete: requires a detached block, for the same reason.
- BlockQueue.Queue.Put: requires a block that fits a buffer and a node to fill, as `memcpy` and the
  use of the last filled node do; `QueueSpec.PutAlwaysPossible` says when there is always a node.
- Mixed sample formats on one filter: cf32 and cs16 filters are separate classes, because both
  formats share one history length in the code.
- XlatingCf32.Create: requires a positive decimation, since the code divides by it.
- XlatingCs16.Create: requires the same, and rotated taps with components below one in magnitude;
  converting a larger one to int16 is undefined, and with -1 itself a term can overflow int32.
- XlatingCs16.Filter.ProcessCs16: requires, as the other formats do, input that fits the working
  buffer behind the history; a trailing odd value is stored but not used.
- LowPassDesign.SanityCheckIs: compares exactly where the code rounds cutoff and half the rate to
  `float`; for the cutoffs of accepted requests both come to the same.
- LowPassDesign.CreateLowPassFilter: requires designed taps that do not add up to zero, since the code
  divides by their sum; the conversion of the tap count to `int` is taken to be in range.
- WorkerSpec.StreamOfWholeSamples: blocks that end within a sample lose the trailing bytes, as in the
  code; the stream of samples is defined block by block.
- WorkerStart.Start: requires a queue of at least two blocks and a positive cutoff rate, which come
  from the configuration; opening the output file is left out.
- The copies of the taps are sequences: they are arrays while they are filled and never change
  afterwards.
- TcpServer.TcpServer.Exit: the dsp worker behind a node is an abstract value here; disconnecting the
  object itself is in `Service.Service.Exit`.
- Service.Service.Connect: requires what `WorkerStart.Start` does; client numbers are unbounded, while
  `client_counter` wraps after 2^32 connections; the number of a node stands for its pointer to the worker.
- Service.Service.Exit: the worker of a client that has left stays readable, while the code frees it.
