/**
 A client's dsp worker as a value: the queue it is fed through, the filter it runs and the stream
 it writes. Events of the producer and of the worker's own loop come in any order.
 */
module WorkerSpec {
  import opened Arithmetic
  import opened ComplexNumbers
  import opened DotProducts
  import opened DownConversion
  import opened MachineInts
  import opened Streaming
  import opened Wrappers
  import opened XlatingSpec
  import QueueSpec

  type Block = QueueSpec.Block

  datatype SdrType = Rtl | Airspy | HackRf | Msi

  datatype Destination = File | Socket

  /** The parameters of one client: device type, low-pass taps, offset, decimation, queue length, destination. */
  datatype Setup = Setup(
    sdr: SdrType, taps: seq<real>, z: Complex, decimation: nat, queueSize: nat, destination: Destination)

  predicate ValidSetup(s: Setup) {
    |s.taps| % 2 == 1 && 0 < s.decimation <= |s.taps| && IsUnit(s.z) && s.queueSize >= 2
  }

  function SetupKernel(s: Setup): Kernel<Complex, Complex, Complex> {
    XlatingKernel(s.taps, s.z, s.decimation)
  }

  /** Bytes reinterpreted as int8. */
  function AsInt8(block: Block): (v: seq<int8>)
    ensures |v| == |block|
  {
    seq(|block|, i requires 0 <= i < |block| =>
      (if block[i] < 0x80 then block[i] as int else block[i] as int - 0x100) as int8)
  }

  /** Bytes reinterpreted as little-endian int16; a trailing odd byte is dropped. */
  function AsInt16(block: Block): (v: seq<int16>)
    ensures |v| == |block| / 2
  {
    seq(|block| / 2, i requires 0 <= i < |block| / 2 =>
      var u := block[2 * i] as int + 0x100 * block[2 * i + 1] as int;
      (if u < 0x8000 then u else u - 0x1_0000) as int16)
  }

  /** The samples in a block. For a device type the worker does not know nothing is processed. */
  function Samples(sdr: SdrType, block: Block): seq<Complex> {
    match sdr
    case Rtl => Cu8Samples(block)
    case HackRf => Cs8Samples(AsInt8(block))
    case Airspy => Cs16Samples(AsInt16(block))
    case Msi => []
  }

  /** The sample stream that a sequence of blocks carries. */
  function Stream(sdr: SdrType, blocks: seq<Block>): seq<Complex> {
    if blocks == [] then [] else
      Stream(sdr, blocks[..|blocks| - 1]) + Samples(sdr, blocks[|blocks| - 1])
  }

  // ---- Worker state ----

  /** Where the worker's loop is: before a take, before processing, before completing, or left. */
  datatype Stage = Ready | Holding | Written | Ended

  /**
   What a worker consists of: queue, position in its loop, filter state, all output so far, whether
   the client's socket is still open, and what of the output has arrived at the destination.
   */
  datatype Core = Core(
    queue: QueueSpec.Queue, stage: Stage, history: seq<Complex>, phase: Complex, written: seq<Complex>,
    open: bool, arrived: seq<Complex>)

  datatype Event = Put(block: Block) | Interrupt | Take | Process | Complete | Close

  /** Output arrives in a file always, on a socket as long as that is open. */
  predicate Reaches(s: Setup, c: Core) {
    s.destination == File || c.open
  }

  /** One event; one that the worker's loop is not ready for does not happen. */
  function CoreStep(s: Setup, c: Core, e: Event): Core
    requires ValidSetup(s) && QueueSpec.Valid(c.queue) && c.queue.size == s.queueSize
  {
    match e
    case Put(block) => c.(queue := QueueSpec.PutBlock(c.queue, block))
    case Interrupt => c.(queue := c.queue.(poisoned := true))
    case Take =>
      if c.stage != Ready then c
      else (match QueueSpec.TakeResult(c.queue)
        case Got(_) => c.(queue := QueueSpec.TakeBlock(c.queue), stage := Holding)
        case Closed => c.(stage := Ended)
        case Blocked => c)
    case Process =>
      if c.stage != Holding || c.queue.detached.None? then c
      else
        var r := ProcessRun(s, c);
        Core(c.queue, Written, r.rest, r.phase, c.written + r.out, c.open, Arrived(s, c, r.out))
    case Complete =>
      if c.stage != Written then c
      else c.(queue := QueueSpec.CompleteBlock(c.queue), stage := Ready)
    case Close => c.(open := false)
  }

  /** What has arrived once more output has been written. */
  function Arrived(s: Setup, c: Core, output: seq<Complex>): seq<Complex> {
    if Reaches(s, c) then c.arrived + output else c.arrived
  }

  /** The filter run that processing the detached block is. */
  function ProcessRun(s: Setup, c: Core): Run<Complex, Complex, Complex>
    requires ValidSetup(s) && c.queue.detached.Some?
  {
    Filter(SetupKernel(s), c.history + Samples(s.sdr, c.queue.detached.value), c.phase)
  }

  /** Where the loop goes from a take. */
  function StageAfterTake(q: QueueSpec.Queue): Stage {
    if q.pending != [] then Holding else if q.poisoned then Ended else Ready
  }

  lemma TakeIs(s: Setup, c: Core)
    requires ValidSetup(s) && QueueSpec.Valid(c.queue) && c.queue.size == s.queueSize && c.stage == Ready
    ensures CoreStep(s, c, Take) == c.(queue := QueueSpec.TakeBlock(c.queue), stage := StageAfterTake(c.queue))
  {
  }

  lemma InterruptIs(s: Setup, c: Core)
    requires ValidSetup(s) && QueueSpec.Valid(c.queue) && c.queue.size == s.queueSize
    ensures CoreStep(s, c, Interrupt) == c.(queue := c.queue.(poisoned := true))
  {
  }

  lemma CompleteIs(s: Setup, c: Core)
    requires ValidSetup(s) && QueueSpec.Valid(c.queue) && c.queue.size == s.queueSize && c.stage == Written
    ensures CoreStep(s, c, Complete) == c.(queue := QueueSpec.CompleteBlock(c.queue), stage := Ready)
  {
  }

  lemma ProcessIs(s: Setup, c: Core)
    requires ValidSetup(s) && QueueSpec.Valid(c.queue) && c.queue.size == s.queueSize
    requires c.queue.detached.Some? && c.stage == Holding
    ensures var r := ProcessRun(s, c);
            CoreStep(s, c, Process)
            == Core(c.queue, Written, r.rest, r.phase, c.written + r.out, c.open, Arrived(s, c, r.out))
  {
  }

  /** A worker with the history of its queue. */
  datatype Worker = Worker(setup: Setup, trace: QueueSpec.Trace, core: Core)

  function Initial(s: Setup): Worker
    requires ValidSetup(s)
  {
    Worker(s, QueueSpec.Start(s.queueSize),
           Core(QueueSpec.Initial(s.queueSize), Ready, Zeros(|s.taps| - 1), ONE, [], true, []))
  }

  /** What an event does to the queue, if anything. */
  function QueueEvent(c: Core, e: Event): Option<QueueSpec.Event> {
    match e
    case Put(block) => Some(QueueSpec.Put(block))
    case Interrupt => Some(QueueSpec.Interrupt)
    case Take => if c.stage == Ready then Some(QueueSpec.Take) else None
    case Process => None
    case Complete => if c.stage == Written then Some(QueueSpec.Complete) else None
    case Close => None
  }

  ghost function Step(w: Worker, e: Event): Worker
    requires Invariant(w)
  {
    var trace :=
      match QueueEvent(w.core, e)
      case None => w.trace
      case Some(qe) => QueueSpec.Next(w.trace, qe);
    Worker(w.setup, trace, CoreStep(w.setup, w.core, e))
  }

  /** The delivered blocks that have been processed: all but the one being held. */
  function Processed(w: Worker): seq<nat> {
    if w.core.stage == Holding && w.trace.delivered != [] then
      w.trace.delivered[..|w.trace.delivered| - 1]
    else
      w.trace.delivered
  }

  function ProcessedBlocks(w: Worker): seq<Block>
    requires QueueSpec.Below(w.trace.delivered, |w.trace.puts|)
  {
    QueueSpec.Blocks(w.trace.puts, Processed(w))
  }

  /** Written stream, history and phase are those of one batch over the given blocks. */
  ghost predicate Filtered(s: Setup, blocks: seq<Block>, c: Core)
    requires ValidSetup(s)
  {
    Filter(SetupKernel(s), Zeros(|s.taps| - 1) + Stream(s.sdr, blocks), ONE) == Run(c.written, c.history, c.phase)
  }

  /** The worker's loop and its queue agree on whether a block is detached. */
  ghost predicate InStep(s: Setup, c: Core) {
    && QueueSpec.Valid(c.queue) && c.queue.size == s.queueSize
    && (c.queue.detached.Some? <==> c.stage == Holding || c.stage == Written)
    && (c.stage == Ended ==> c.queue.poisoned)
  }

  /** What has been written so far is the batch filter of what has been processed so far. */
  ghost predicate Invariant(w: Worker) {
    && ValidSetup(w.setup)
    && QueueSpec.TraceInvariant(w.trace)
    && w.trace.queue == w.core.queue
    && InStep(w.setup, w.core)
    && Filtered(w.setup, ProcessedBlocks(w), w.core)
    && (Reaches(w.setup, w.core) ==> w.core.arrived == w.core.written)
  }

  lemma InitialInvariant(s: Setup)
    requires ValidSetup(s)
    ensures Invariant(Initial(s))
  {
    var w := Initial(s);
    assert ProcessedBlocks(w) == [];
    assert Zeros(|s.taps| - 1) + [] == Zeros(|s.taps| - 1);
  }

  /** A longer put history does not change the blocks with earlier numbers. */
  lemma BlocksKept(puts: seq<Block>, puts': seq<Block>, ids: seq<nat>)
    requires puts <= puts' && QueueSpec.Below(ids, |puts|)
    ensures QueueSpec.Blocks(puts, ids) == QueueSpec.Blocks(puts', ids)
  {
  }

  /** The worker after a queue event that takes its loop to the given stage. */
  function Moved(w: Worker, e: QueueSpec.Event, stage: Stage): Worker
    requires QueueSpec.Valid(w.core.queue) && w.trace.queue == w.core.queue
    requires QueueSpec.Enabled(w.core.queue, e) && |w.trace.waiting| == |w.core.queue.pending|
  {
    Worker(w.setup, QueueSpec.Log(w.trace, e),
           w.core.(queue := QueueSpec.Step(w.core.queue, e), stage := stage))
  }

  lemma FilteredSame(s: Setup, blocks: seq<Block>, c: Core, c': Core)
    requires ValidSetup(s) && Filtered(s, blocks, c)
    requires c'.written == c.written && c'.history == c.history && c'.phase == c.phase
    ensures Filtered(s, blocks, c')
  {
  }

  /** A queue event that keeps the processed blocks keeps the invariant. */
  lemma QueueStep(w: Worker, e: QueueSpec.Event, stage: Stage)
    requires Invariant(w) && QueueSpec.Enabled(w.core.queue, e)
    requires Processed(Moved(w, e, stage)) == Processed(w)
    requires InStep(w.setup, Moved(w, e, stage).core)
    ensures Invariant(Moved(w, e, stage))
  {
    QueueSpec.LogKeepsInvariant(w.trace, e);
    QueueSpec.LogStep(w.trace, e);
    var w' := Moved(w, e, stage);
    assert QueueSpec.Below(Processed(w), |w.trace.puts|);
    hide Filtered, InStep, QueueSpec.TraceInvariant, QueueSpec.Log, QueueSpec.Step, QueueSpec.Blocks;
    BlocksKept(w.trace.puts, w'.trace.puts, Processed(w));
    FilteredSame(w.setup, ProcessedBlocks(w), w.core, w'.core);
  }

  lemma LastBlock(puts: seq<Block>, ids: seq<nat>)
    requires QueueSpec.Below(ids, |puts|) && ids != []
    ensures QueueSpec.Blocks(puts, ids) == QueueSpec.Blocks(puts, ids[..|ids| - 1]) + [puts[ids[|ids| - 1]]]
  {
  }

  /** The worker after its filter call for the held block. */
  lemma ProcessMoves(w: Worker)
    requires Invariant(w) && w.core.stage == Holding
    ensures var w', r := Step(w, Process), ProcessRun(w.setup, w.core);
            && w' == Worker(w.setup, w.trace, Core(w.core.queue, Written, r.rest, r.phase, w.core.written + r.out,
                                                   w.core.open, Arrived(w.setup, w.core, r.out)))
            && QueueSpec.Below(w'.trace.delivered, |w'.trace.puts|)
            && ProcessedBlocks(w') == ProcessedBlocks(w) + [w.core.queue.detached.value]
  {
    hide Filtered, Filter, QueueSpec.Accounted, QueueSpec.Increasing, QueueSpec.Blocks;
    ProcessIs(w.setup, w.core);
    LastBlock(w.trace.puts, w.trace.delivered);
  }

  lemma ProcessStep(w: Worker)
    requires Invariant(w) && w.core.stage == Holding
    ensures Invariant(Step(w, Process))
  {
    ProcessMoves(w);
    var w', r := Step(w, Process), ProcessRun(w.setup, w.core);
    FilteredMore(w.setup, ProcessedBlocks(w), w.core.queue.detached.value, w.core);
    hide QueueSpec.TraceInvariant, QueueSpec.Blocks, Filtered, Step;
    FilteredSame(w.setup, ProcessedBlocks(w'),
                 w.core.(written := w.core.written + r.out, history := r.rest, phase := r.phase), w'.core);
  }

  lemma StreamMore(prefix: seq<Complex>, sdr: SdrType, blocks: seq<Block>, block: Block)
    ensures prefix + Stream(sdr, blocks + [block]) == prefix + Stream(sdr, blocks) + Samples(sdr, block)
  {
    assert (blocks + [block])[..|blocks|] == blocks;
  }

  /** Filtering one more block from where the batch left off is the batch over one more block. */
  lemma FilteredMore(s: Setup, blocks: seq<Block>, block: Block, c: Core)
    requires ValidSetup(s) && Filtered(s, blocks, c)
    ensures var r := Filter(SetupKernel(s), c.history + Samples(s.sdr, block), c.phase);
            Filtered(s, blocks + [block], c.(written := c.written + r.out, history := r.rest, phase := r.phase))
  {
    StreamMore(Zeros(|s.taps| - 1), s.sdr, blocks, block);
    FilterSplits(SetupKernel(s), Zeros(|s.taps| - 1) + Stream(s.sdr, blocks), Samples(s.sdr, block), ONE);
  }

  lemma ProducerStep(w: Worker, e: Event)
    requires Invariant(w) && (e.Put? || e.Interrupt?)
    ensures Invariant(Step(w, e))
  {
    hide Filtered, Filter, QueueSpec.Accounted, QueueSpec.Increasing, QueueSpec.Blocks;
    var qe := if e.Put? then QueueSpec.Put(e.block) else QueueSpec.Interrupt;
    QueueSpec.PutAlwaysPossible(w.core.queue.size);
    assert QueueSpec.Enabled(w.core.queue, qe);
    var w' := Moved(w, qe, w.core.stage);
    assert Step(w, e) == w' && Processed(w') == Processed(w) && InStep(w.setup, w'.core);
    QueueStep(w, qe, w.core.stage);
  }

  lemma TakeMoves(w: Worker)
    requires Invariant(w) && w.core.stage == Ready
    ensures var w' := Moved(w, QueueSpec.Take, StageAfterTake(w.core.queue));
            Step(w, Take) == w' && Processed(w') == Processed(w) && InStep(w.setup, w'.core)
  {
    hide Filtered, Filter, QueueSpec.Accounted, QueueSpec.Increasing, QueueSpec.Blocks;
    TakeIs(w.setup, w.core);
  }

  lemma TakeStep(w: Worker)
    requires Invariant(w)
    ensures Invariant(Step(w, Take))
  {
    if w.core.stage == Ready {
      TakeMoves(w);
      QueueStep(w, QueueSpec.Take, StageAfterTake(w.core.queue));
    } else {
      assert Step(w, Take) == w;
    }
  }

  lemma CompleteStep(w: Worker)
    requires Invariant(w)
    ensures Invariant(Step(w, Complete))
  {
    hide Filtered, Filter, QueueSpec.Accounted, QueueSpec.Increasing, QueueSpec.Blocks;
    if w.core.stage == Written {
      QueueStep(w, QueueSpec.Complete, Ready);
      assert Step(w, Complete) == Moved(w, QueueSpec.Complete, Ready);
    } else {
      assert Step(w, Complete) == w;
    }
  }

  lemma StepKeepsInvariant(w: Worker, e: Event)
    requires Invariant(w)
    ensures Invariant(Step(w, e))
  {
    match e
    case Put(_) => ProducerStep(w, e);
    case Interrupt => ProducerStep(w, e);
    case Take => TakeStep(w);
    case Process => if w.core.stage == Holding { ProcessStep(w); }
    case Complete => CompleteStep(w);
    case Close => FilteredSame(w.setup, ProcessedBlocks(w), w.core, Step(w, Close).core);
  }

  ghost function After(w: Worker, events: seq<Event>): (w': Worker)
    requires Invariant(w)
    ensures Invariant(w') && w'.setup == w.setup
    decreases |events|
  {
    if events == [] then w
    else
      StepKeepsInvariant(w, events[0]);
      After(Step(w, events[0]), events[1..])
  }

  /** Only a put adds to what has been put, and it adds its block at the end. */
  lemma PutsAfterStep(w: Worker, e: Event)
    requires Invariant(w)
    ensures Step(w, e).trace.puts == if e.Put? then w.trace.puts + [e.block] else w.trace.puts
  {
  }

  /** A put block is lost exactly by a put that finds every block of the queue in use. */
  lemma LostAfterStep(w: Worker, e: Event)
    requires Invariant(w)
    ensures Step(w, e).trace.lost
            == if e.Put? && QueueSpec.Full(w.core.queue) then w.trace.lost + [|w.trace.puts| - 1] else w.trace.lost
  {
    hide Filtered, Filter, QueueSpec.Accounted, QueueSpec.Increasing, QueueSpec.Blocks;
    match QueueEvent(w.core, e)
    case None =>
    case Some(qe) =>
      if QueueSpec.Enabled(w.core.queue, qe) {
        QueueSpec.LostExactly(w.trace, qe);
      }
      if e.Put? {
        QueueSpec.PutAlwaysPossible(w.core.queue.size);
      }
  }

  lemma StepOfCore(w: Worker, e: Event)
    requires Invariant(w)
    ensures Invariant(Step(w, e)) && Step(w, e).setup == w.setup && Step(w, e).core == CoreStep(w.setup, w.core, e)
  {
    StepKeepsInvariant(w, e);
  }

  /** Taking, processing and completing one block, in terms of the parts of a worker. */
  lemma TurnOfCore(s: Setup, c: Core)
    requires ValidSetup(s) && InStep(s, c) && c.stage == Ready && c.queue.pending != []
    ensures var held := CoreStep(s, c, Take);
            && held.queue.detached == Some(c.queue.pending[0])
            && QueueSpec.Valid(held.queue) && InStep(s, Served(s, held))
            && var x := c.history + Samples(s.sdr, c.queue.pending[0]);
            && var c', r := Served(s, held), Filter(SetupKernel(s), x, c.phase);
            && c'.stage == Ready && c'.queue == c.queue.(pending := c.queue.pending[1..], detached := None)
            && c'.written == c.written + r.out && c'.history == r.rest && c'.phase == r.phase
  {
    hide Filter, Samples;
    TakeIs(s, c);
    QueueSpec.TakeOutcome(c.queue);
    ProcessIs(s, CoreStep(s, c, Take));
  }

  /**
   While the worker lives it serves: with a block pending, one turn of its loop takes the oldest one,
   writes what the filter makes of it and is ready for the next.
   */
  lemma TurnServesOldest(w: Worker)
    requires Invariant(w) && w.core.stage == Ready && w.core.queue.pending != []
    ensures var w', c := After(w, [Take, Process, Complete]).core, w.core;
            var r := Filter(SetupKernel(w.setup), c.history + Samples(w.setup.sdr, c.queue.pending[0]), c.phase);
            && w'.stage == Ready && w'.queue == c.queue.(pending := c.queue.pending[1..], detached := None)
            && w'.written == c.written + r.out && w'.history == r.rest && w'.phase == r.phase
  {
    TurnOfCore(w.setup, w.core);
    StepOfCore(w, Take);
    hide Step, Filter, Samples, CoreStep, Invariant;
    StepOfCore(Step(w, Take), Process);
    StepOfCore(Step(Step(w, Take), Process), Complete);
    RunOfThree(w, Take, Process, Complete);
  }

  lemma RunOfThree(w: Worker, a: Event, b: Event, c: Event)
    requires Invariant(w) && Invariant(Step(w, a)) && Invariant(Step(Step(w, a), b))
    ensures After(w, [a, b, c]) == Step(Step(Step(w, a), b), c)
  {
    hide Step;
    assert [a, b, c][1..] == [b, c] && [b, c][1..] == [c] && [c][1..] == [];
    var w1 := Step(w, a);
    var w2 := Step(w1, b);
    StepKeepsInvariant(w2, c);
    assert After(w2, [c]) == After(Step(w2, c), []);
    assert After(w1, [b, c]) == After(w2, [c]);
  }

  /** The down-converted signal carried by a sequence of blocks. */
  function Expected(s: Setup, blocks: seq<Block>): seq<Complex>
    requires ValidSetup(s)
  {
    DownConverted(Stream(s.sdr, blocks), s.taps, s.z, s.decimation)
  }

  /**
   End to end: after any interleaving of puts, interrupts and the worker's own steps, the worker has
   written exactly the down-conversion of the blocks it took, and those are put blocks in put order.
   */
  lemma WrittenIsDownConversion(s: Setup, events: seq<Event>)
    requires ValidSetup(s)
    ensures Invariant(Initial(s))
    ensures var w := After(Initial(s), events);
            && QueueSpec.Increasing(Processed(w))
            && w.core.written == Expected(s, ProcessedBlocks(w))
  {
    InitialInvariant(s);
    var w := After(Initial(s), events);
    InvariantMeansExpected(w);
    IncreasingPart(w.trace.delivered, w.trace.waiting, Processed(w));
  }

  lemma InvariantMeansExpected(w: Worker)
    requires Invariant(w)
    ensures w.core.written == Expected(w.setup, ProcessedBlocks(w))
  {
    FilterDownConverts(Stream(w.setup.sdr, ProcessedBlocks(w)), w.setup.taps, w.setup.z, w.setup.decimation);
  }

  lemma IncreasingPart(delivered: seq<nat>, waiting: seq<nat>, part: seq<nat>)
    requires QueueSpec.Increasing(delivered + waiting) && part <= delivered
    ensures QueueSpec.Increasing(part)
  {
    assert forall i :: 0 <= i < |part| ==> part[i] == (delivered + waiting)[i];
  }

  // ---- Graceful end ----

  /** The next step of the worker's own loop. */
  function OwnStep(stage: Stage): Event {
    match stage
    case Holding => Process
    case Written => Complete
    case _ => Take
  }

  function StageRank(s: Stage): nat {
    match s
    case Ended => 0
    case Ready => 1
    case Written => 2
    case Holding => 3
  }

  /** What a step of the worker's own loop leaves alone after an interrupt, and how it progresses. */
  ghost predicate Progresses(w: Worker, w': Worker) {
    && w'.setup == w.setup && w'.core.queue.poisoned && w'.core.open == w.core.open
    && (!Reaches(w.setup, w.core) ==> w'.core.arrived == w.core.arrived)
    && w'.trace.puts == w.trace.puts && w'.trace.lost == w.trace.lost
    && w'.trace.delivered + w'.trace.waiting == w.trace.delivered + w.trace.waiting
    && (w'.core.stage == Ended ==> w'.trace.waiting == [])
    && |w'.core.queue.pending| <= |w.core.queue.pending|
    && (|w'.core.queue.pending| == |w.core.queue.pending| ==> StageRank(w'.core.stage) < StageRank(w.core.stage))
  }

  lemma TakeProgresses(w: Worker)
    requires Invariant(w) && w.core.queue.poisoned && w.core.stage == Ready
    ensures Progresses(w, Step(w, Take))
  {
    hide Filtered, Filter, QueueSpec.Accounted, QueueSpec.Increasing, QueueSpec.Blocks;
    TakeMoves(w);
    QueueSpec.TakeMovesOne(w.trace);
  }

  lemma ProcessProgresses(w: Worker)
    requires Invariant(w) && w.core.queue.poisoned && w.core.stage == Holding
    ensures Progresses(w, Step(w, Process))
  {
    hide Filtered, Filter, QueueSpec.Accounted, QueueSpec.Increasing, QueueSpec.Blocks;
  }

  lemma CompleteProgresses(w: Worker)
    requires Invariant(w) && w.core.queue.poisoned && w.core.stage == Written
    ensures Progresses(w, Step(w, Complete))
  {
    hide Filtered, Filter, QueueSpec.Accounted, QueueSpec.Increasing, QueueSpec.Blocks;
  }

  lemma OwnStepProgresses(w: Worker)
    requires Invariant(w) && w.core.queue.poisoned && w.core.stage != Ended
    ensures Invariant(Step(w, OwnStep(w.core.stage))) && Progresses(w, Step(w, OwnStep(w.core.stage)))
  {
    StepKeepsInvariant(w, OwnStep(w.core.stage));
    match w.core.stage
    case Ready => TakeProgresses(w);
    case Holding => ProcessProgresses(w);
    case Written => CompleteProgresses(w);
  }

  /** The parts of a worker left to itself after the interrupt. */
  ghost function CoreDrained(s: Setup, c: Core): Core
    requires ValidSetup(s) && InStep(s, c) && c.queue.poisoned
    decreases |c.queue.pending|, StageRank(c.stage)
  {
    if c.stage == Ended then c else CoreDrained(s, CoreStep(s, c, OwnStep(c.stage)))
  }

  /** Processing and completing the held block. */
  function Served(s: Setup, c: Core): Core
    requires ValidSetup(s) && QueueSpec.Valid(c.queue) && c.queue.size == s.queueSize
    requires c.queue.detached.Some? && c.stage == Holding
  {
    CoreStep(s, CoreStep(s, c, Process), Complete)
  }

  /** The rest of a turn that the interrupt found under way. */
  lemma RestOfTurn(s: Setup, c: Core)
    requires ValidSetup(s) && InStep(s, c) && c.queue.poisoned
    ensures c.stage == Ended ==> CoreDrained(s, c) == c
    ensures c.stage == Holding ==> Served(s, c).queue.poisoned && CoreDrained(s, c) == CoreDrained(s, Served(s, c))
    ensures c.stage == Written ==>
              var done := CoreStep(s, c, Complete);
              done.queue.poisoned && CoreDrained(s, c) == CoreDrained(s, done)
  {
    if c.stage == Holding {
      var done := CoreStep(s, c, Process);
      assert CoreDrained(s, c) == CoreDrained(s, done);
      assert CoreDrained(s, done) == CoreDrained(s, Served(s, c));
    }
  }

  /** One turn of the loop, for a queue that has a block pending. */
  lemma DrainTurn(s: Setup, c: Core)
    requires ValidSetup(s) && InStep(s, c) && c.queue.poisoned && c.stage == Ready && c.queue.pending != []
    ensures var held := CoreStep(s, c, Take);
            && held.stage == Holding && InStep(s, held) && InStep(s, Served(s, held))
            && Served(s, held).queue.poisoned && Served(s, held).queue.pending == c.queue.pending[1..]
            && CoreDrained(s, c) == CoreDrained(s, Served(s, held))
  {
    var held := CoreStep(s, c, Take);
    var done := CoreStep(s, held, Process);
    assert CoreDrained(s, c) == CoreDrained(s, held);
    assert CoreDrained(s, held) == CoreDrained(s, done);
    assert CoreDrained(s, done) == CoreDrained(s, Served(s, held));
  }

  /** And the last turn, for a queue that has none. */
  lemma LastTurn(s: Setup, c: Core)
    requires ValidSetup(s) && InStep(s, c) && c.queue.poisoned && c.stage == Ready && c.queue.pending == []
    ensures CoreDrained(s, c) == CoreStep(s, c, Take)
  {
    assert CoreDrained(s, c) == CoreDrained(s, CoreStep(s, c, Take));
  }

  lemma TurnIs(s: Setup, c: Core)
    requires ValidSetup(s) && InStep(s, c) && c.queue.poisoned && c.stage == Ready
    ensures var held := CoreStep(s, c, Take);
            match QueueSpec.TakeResult(c.queue)
            case Closed => CoreDrained(s, c) == held && held.stage == Ended
            case Got(_) =>
              && held.stage == Holding && held.queue.detached.Some? && InStep(s, held)
              && Served(s, held).queue.poisoned
              && |Served(s, held).queue.pending| < |c.queue.pending|
              && CoreDrained(s, c) == CoreDrained(s, Served(s, held))
            case Blocked => false
  {
    if c.queue.pending == [] {
      LastTurn(s, c);
    } else {
      DrainTurn(s, c);
    }
  }

  /** The worker left to itself after the interrupt: pthread_join returns once the loop has ended. */
  ghost function Drained(w: Worker): Worker
    requires Invariant(w) && w.core.queue.poisoned
    decreases |w.core.queue.pending|, StageRank(w.core.stage)
  {
    if w.core.stage == Ended then w
    else
      OwnStepProgresses(w);
      Drained(Step(w, OwnStep(w.core.stage)))
  }

  lemma {:induction false} DrainedCore(w: Worker)
    requires Invariant(w) && w.core.queue.poisoned
    ensures Drained(w).core == CoreDrained(w.setup, w.core)
    decreases |w.core.queue.pending|, StageRank(w.core.stage)
  {
    if w.core.stage == Ended {
    } else {
      OwnStepProgresses(w);
      DrainedCore(Step(w, OwnStep(w.core.stage)));
    }
  }

  /**
   Whatever was pending at the interrupt is still taken, in order, and processed before the loop
   ends; nothing is overwritten any more.
   */
  lemma {:induction false} DrainDeliversEverything(w: Worker)
    requires Invariant(w) && w.core.queue.poisoned
    requires w.core.stage == Ended ==> w.trace.waiting == []
    ensures var d := Drained(w);
            && Invariant(d) && d.core.stage == Ended && d.setup == w.setup && d.core.queue.poisoned
            && d.trace.puts == w.trace.puts && d.trace.lost == w.trace.lost
            && d.trace.waiting == [] && d.trace.delivered == w.trace.delivered + w.trace.waiting
            && d.core.open == w.core.open && (!Reaches(w.setup, w.core) ==> d.core.arrived == w.core.arrived)
    decreases |w.core.queue.pending|, StageRank(w.core.stage)
  {
    if w.core.stage == Ended {
      assert w.trace.delivered + [] == w.trace.delivered;
    } else {
      OwnStepProgresses(w);
      DrainDeliversEverything(Step(w, OwnStep(w.core.stage)));
    }
  }

  /** `dsp_worker_destroy`: interrupt, then join. */
  ghost function Destroyed(w: Worker): Worker
    requires Invariant(w)
  {
    StepKeepsInvariant(w, Interrupt);
    Drained(Step(w, Interrupt))
  }

  lemma InterruptOnlyPoisons(w: Worker)
    requires Invariant(w)
    ensures var w' := Step(w, Interrupt);
            && w'.setup == w.setup && w'.core == w.core.(queue := w.core.queue.(poisoned := true))
            && w'.trace == w.trace.(queue := w'.core.queue)
  {
  }

  /** A destroyed worker has worked off everything that was put into its queue and not overwritten. */
  lemma DestroyedHasDelivered(w: Worker)
    requires Invariant(w) && w.core.stage != Ended
    ensures var d := Destroyed(w);
            && Invariant(d) && d.core.stage == Ended && d.setup == w.setup && d.core.queue.poisoned
            && d.trace.puts == w.trace.puts && d.trace.lost == w.trace.lost
            && d.trace.waiting == [] && d.trace.delivered == w.trace.delivered + w.trace.waiting
            && d.core.open == w.core.open && (!Reaches(w.setup, w.core) ==> d.core.arrived == w.core.arrived)
  {
    StepKeepsInvariant(w, Interrupt);
    InterruptOnlyPoisons(w);
    DrainDeliversEverything(Step(w, Interrupt));
  }

  lemma CloseOnlyCloses(w: Worker)
    requires Invariant(w)
    ensures Step(w, Close) == w.(core := w.core.(open := false))
  {
    hide Filtered, Filter, QueueSpec.Accounted, QueueSpec.Increasing, QueueSpec.Blocks;
  }

  /** What the exit of a client does to its worker: the socket is closed, then the worker destroyed. */
  ghost function Disconnected(w: Worker): Worker
    requires Invariant(w)
  {
    StepKeepsInvariant(w, Close);
    Destroyed(Step(w, Close))
  }

  lemma DisconnectedHasDelivered(w: Worker)
    requires Invariant(w) && w.core.stage != Ended
    ensures var d := Disconnected(w);
            && Invariant(d) && d.core.stage == Ended && d.setup == w.setup && d.core.queue.poisoned
            && d.trace.puts == w.trace.puts && d.trace.lost == w.trace.lost
            && d.trace.waiting == [] && d.trace.delivered == w.trace.delivered + w.trace.waiting
            && !d.core.open && (w.setup.destination == Socket ==> d.core.arrived == w.core.arrived)
  {
    StepKeepsInvariant(w, Close);
    CloseOnlyCloses(w);
    DestroyedHasDelivered(Step(w, Close));
  }

  /** A drained worker whose queue never overflowed has written the down-conversion of everything put. */
  lemma NothingLostMeansEverythingWritten(w: Worker)
    requires Invariant(w) && w.core.stage == Ended && w.trace.waiting == [] && w.trace.lost == []
    ensures w.core.written == Expected(w.setup, w.trace.puts)
  {
    InvariantMeansExpected(w);
    QueueSpec.NothingLost(w.trace);
    assert ProcessedBlocks(w) == w.trace.puts;
  }

  /** The format a device delivers; the MSi driver delivers int16 pairs as the Airspy driver does. */
  function DeviceFormat(sdr: SdrType): SdrType {
    if sdr == Msi then Airspy else sdr
  }

  /**
   What has been written is the down-conversion of the samples the device delivered exactly when the
   loop has a filter call for the device type, or there was no sample.
   */
  lemma DeviceServed(s: Setup, events: seq<Event>)
    requires ValidSetup(s)
    ensures Invariant(Initial(s))
    ensures var w := After(Initial(s), events);
            var x := Stream(DeviceFormat(s.sdr), ProcessedBlocks(w));
            w.core.written == DownConverted(x, s.taps, s.z, s.decimation) <==> s.sdr != Msi || x == []
  {
    WrittenIsDownConversion(s, events);
    if s.sdr == Msi {
      var w := After(Initial(s), events);
      MsiWritesNothing(s, events);
      NoOutputs(|Stream(DeviceFormat(s.sdr), ProcessedBlocks(w))|, s.decimation);
    }
  }

  lemma NoOutputs(n: nat, d: nat)
    requires d > 0
    ensures CeilDiv(n, d) == 0 <==> n == 0
  {
    if n == 0 {
      DivUnique(d - 1, d, 0);
    } else {
      DivStep(n + d - 1, d);
    }
  }

  /** For a device type the loop has no filter call for, nothing is ever written. */
  lemma MsiWritesNothing(s: Setup, events: seq<Event>)
    requires ValidSetup(s) && s.sdr == Msi
    ensures Invariant(Initial(s)) && After(Initial(s), events).core.written == []
  {
    WrittenIsDownConversion(s, events);
    NoMsiSamples(ProcessedBlocks(After(Initial(s), events)));
  }

  lemma {:induction false} NoMsiSamples(blocks: seq<Block>)
    ensures Stream(Msi, blocks) == []
  {
    if blocks == [] {
    } else {
      NoMsiSamples(blocks[..|blocks| - 1]);
    }
  }

  // ---- Blocks of whole samples ----

  lemma SamplesConcat(sdr: SdrType, a: Block, b: Block)
    requires WholeSamples(sdr, a)
    ensures Samples(sdr, a + b) == Samples(sdr, a) + Samples(sdr, b)
  {
    match sdr
    case Rtl => Cu8Concat(a, b);
    case HackRf => SamplesConcatHackRf(a, b);
    case Airspy => SamplesConcatAirspy(a, b);
    case Msi =>
  }

  lemma SamplesConcatHackRf(a: Block, b: Block)
    requires |a| % 2 == 0
    ensures Samples(HackRf, a + b) == Samples(HackRf, a) + Samples(HackRf, b)
  {
    assert AsInt8(a + b) == AsInt8(a) + AsInt8(b);
    Cs8Concat(AsInt8(a), AsInt8(b));
  }

  lemma SamplesConcatAirspy(a: Block, b: Block)
    requires |a| % 4 == 0
    ensures Samples(Airspy, a + b) == Samples(Airspy, a) + Samples(Airspy, b)
  {
    AsInt16Concat(a, b);
    assert |AsInt16(a)| % 2 == 0;
    Cs16Concat(AsInt16(a), AsInt16(b));
  }

  lemma AsInt16Concat(a: Block, b: Block)
    requires |a| % 2 == 0
    ensures AsInt16(a + b) == AsInt16(a) + AsInt16(b)
  {
    forall i | 0 <= i < |AsInt16(a + b)|
      ensures AsInt16(a + b)[i] == (AsInt16(a) + AsInt16(b))[i]
    {
      if i >= |a| / 2 {
        assert (a + b)[2 * i] == b[2 * (i - |a| / 2)] && (a + b)[2 * i + 1] == b[2 * (i - |a| / 2) + 1];
      }
    }
  }

  lemma NoSamples(sdr: SdrType)
    ensures Samples(sdr, []) == []
  {
  }

  predicate WholeSamples(sdr: SdrType, b: Block) {
    if sdr == Airspy then |b| % 4 == 0 else |b| % 2 == 0
  }

  lemma WholeConcat(sdr: SdrType, a: Block, b: Block)
    requires WholeSamples(sdr, a) && WholeSamples(sdr, b)
    ensures WholeSamples(sdr, a + b)
  {
  }

  /** Blocks of whole samples carry the samples of all their bytes in one piece. */
  lemma {:induction false} StreamOfWholeSamples(sdr: SdrType, blocks: seq<Block>)
    requires forall i :: 0 <= i < |blocks| ==> WholeSamples(sdr, blocks[i])
    ensures Stream(sdr, blocks) == Samples(sdr, Concat(blocks)) && WholeSamples(sdr, Concat(blocks))
  {
    if blocks == [] {
      NoSamples(sdr);
    } else {
      var front, last := blocks[..|blocks| - 1], blocks[|blocks| - 1];
      StreamOfWholeSamples(sdr, front);
      WholeConcat(sdr, Concat(front), last);
      calc {
        Stream(sdr, blocks);
        Stream(sdr, front) + Samples(sdr, last);
        Samples(sdr, Concat(front)) + Samples(sdr, last);
        { SamplesConcat(sdr, Concat(front), last); }
        Samples(sdr, Concat(front) + last);
      }
    }
  }
}
