/** A client's dsp worker on the heap: its queue, its filter and the stream it writes. */
module DspWorker {
  import opened ComplexNumbers
  import opened DotProducts
  import opened MachineInts
  import opened WorkerSpec
  import BlockQueue
  import QueueSpec
  import Streaming
  import XlatingCf32
  import W = WorkerSpec

  class Worker {
    const sdr: SdrType
    const build: XlatingCf32.Build
    const queue: BlockQueue.Queue
    const filter: XlatingCf32.Filter
    const kind: Destination
    /** Whether the server still sends on the client's socket. */
    var socketOpen: bool
    /** What has arrived in the file or on the socket. */
    var destination: seq<Complex>

    ghost const setup: Setup
    /** All output so far, whether it has arrived or not. */
    ghost var written: seq<Complex>

    ghost function FilterRepr(): set<object> {
      {filter, filter.workingBuffer, filter.output}
    }

    /** Queue and filter do not share memory. */
    ghost predicate Apart() {
      queue.Repr() !! FilterRepr() && this !in queue.Repr() && this !in FilterRepr()
    }

    ghost predicate Valid()
      reads this, queue.Repr(), FilterRepr()
    {
      && Apart()
      && queue.Valid() && |queue.nodes| == setup.queueSize
      && filter.Valid() && filter.maxInput >= queue.bufferSize
      && ValidSetup(setup) && setup.sdr == sdr && setup.destination == kind
      && filter.Kernel() == SetupKernel(setup)
    }

    /** The abstract worker, when the loop of `callback` is at the given stage. */
    ghost function State(stage: Stage): Core
      requires Valid()
      reads this, queue.Repr(), FilterRepr()
    {
      Core(queue.State(), stage, filter.History(), filter.phase, written, socketOpen, destination)
    }

    constructor (ghost setup: Setup, sdr: SdrType, kind: Destination, build: XlatingCf32.Build,
                 queue: BlockQueue.Queue, filter: XlatingCf32.Filter)
      requires ValidSetup(setup) && setup.sdr == sdr && setup.destination == kind
      requires queue.Valid() && queue.State() == QueueSpec.Initial(setup.queueSize)
      requires filter.Valid() && filter.maxInput >= queue.bufferSize && filter.Kernel() == SetupKernel(setup)
      requires filter.History() == Zeros(|setup.taps| - 1) && filter.phase == ONE
      requires queue.Repr() !! {filter, filter.workingBuffer, filter.output}
      ensures Valid() && State(Ready) == Initial(setup).core
      ensures this.setup == setup && this.queue == queue && this.filter == filter
    {
      this.setup, this.sdr, this.kind, this.build, this.queue, this.filter := setup, sdr, kind, build, queue, filter;
      socketOpen, destination, written := true, [], [];
    }

    /** `dsp_worker_process`: a block arrives from the device, whatever the loop is doing. */
    method Deliver(block: seq<uint8>, ghost stage: Stage)
      requires Valid() && |block| <= queue.bufferSize
      modifies queue.Repr()
      ensures Valid() && QueueSpec.Valid(old(State(stage)).queue)
      ensures State(stage) == CoreStep(setup, old(State(stage)), Put(block))
      ensures queue.detachedNode == old(queue.detachedNode)
    {
      QueueFits();
      assert |queue.nodes| >= 2;
      hide XlatingCf32.Filter.Valid, ValidSetup, BlockQueue.Queue.Valid;
      queue.Put(block);
    }

    /** The interrupt sent by `dsp_worker_destroy`. */
    method SendInterrupt(ghost stage: Stage)
      requires Valid()
      modifies queue`poisonPill
      ensures Valid() && QueueSpec.Valid(old(State(stage)).queue)
      ensures State(stage) == CoreStep(setup, old(State(stage)), Interrupt)
    {
      QueueFits();
      InterruptIs(setup, State(stage));
      queue.Interrupt();
    }

    lemma QueueFits()
      requires Valid()
      ensures QueueSpec.Valid(queue.State())
    {
    }

    /** Start of the loop of `callback`: wait for a block, or learn that there will be none. */
    method TakeBlock() returns (taken: QueueSpec.Taken, ghost next: Stage)
      requires Valid() && queue.detachedNode == null
      modifies queue.Repr()
      ensures Valid() && QueueSpec.Valid(old(State(Ready)).queue)
      ensures State(next) == CoreStep(setup, old(State(Ready)), Take)
      ensures taken == QueueSpec.TakeResult(old(State(Ready)).queue)
      ensures queue.detachedNode != null <==> taken.Got?
    {
      QueueFits();
      TakeIs(setup, State(Ready));
      next := StageAfterTake(queue.State());
      taken := queue.Take();
    }

    /** The filter call for the device type; an unknown one leaves filter and output alone. */
    method RunFilter(input: seq<uint8>) returns (outputLen: nat)
      requires filter.Valid() && |input| <= filter.maxInput
      modifies filter`historyOffset, filter`phase, filter.workingBuffer, filter.output
      ensures filter.Valid()
      ensures filter.Processed(old(filter.History()), old(filter.phase), Samples(sdr, input), outputLen)
    {
      match sdr
      case HackRf => outputLen := filter.ProcessCs8(build, AsInt8(input));
      case Rtl => outputLen := filter.ProcessCu8(build, input);
      case Airspy => outputLen := filter.ProcessCs16(build, AsInt16(input));
      case Msi =>
        assert filter.History() + [] == filter.History();
        outputLen := 0;
    }

    /** `fwrite`, `gzwrite` or `write` of all of the output; a `write` to a closed socket fails. */
    method Append(output: seq<Complex>)
      requires Valid()
      modifies this`destination, this`written
      ensures Valid() && queue.State() == old(queue.State()) && filter.History() == old(filter.History())
      ensures written == old(written) + output
      ensures destination == if kind == File || socketOpen then old(destination) + output else old(destination)
    {
      hide XlatingCf32.Filter.Valid, ValidSetup, BlockQueue.Queue.Valid, BlockQueue.Queue.State;
      if kind == File || socketOpen {
        destination := destination + output;
      }
      written := written + output;
    }

    /** The server closes the client's socket, whatever the loop is doing. */
    method CloseSocket(ghost stage: Stage)
      requires Valid()
      modifies this`socketOpen
      ensures Valid() && QueueSpec.Valid(old(State(stage)).queue)
      ensures State(stage) == CoreStep(setup, old(State(stage)), Close)
    {
      QueueFits();
      hide XlatingCf32.Filter.Valid, ValidSetup, BlockQueue.Queue.Valid, BlockQueue.Queue.State;
      socketOpen := false;
    }

    /** Reads the detached block through its node, which no put can touch. */
    method ReadDetached() returns (input: seq<uint8>)
      requires Valid() && queue.detachedNode != null
      ensures |input| <= queue.bufferSize
      ensures input == queue.DetachedBytes()
    {
      var node := queue.detachedNode;
      input := node.buffer[..node.len];
    }

    /** The filter call touches nothing of the queue. */
    method FilterApart(input: seq<uint8>) returns (outputLen: nat)
      requires Valid() && |input| <= queue.bufferSize
      modifies FilterRepr()
      ensures Valid() && queue.State() == old(queue.State())
      ensures filter.Processed(old(filter.History()), old(filter.phase), Samples(sdr, input), outputLen)
    {
      outputLen := RunFilter(input);
    }

    /** Filters the detached block. */
    method FilterDetached() returns (outputLen: nat)
      requires Valid() && queue.detachedNode != null
      modifies FilterRepr()
      ensures Valid() && queue.State() == old(queue.State())
      ensures var r := ProcessRun(setup, old(State(Holding)));
              && outputLen <= filter.output.Length && filter.output[..outputLen] == r.out
              && filter.History() == r.rest && filter.phase == r.phase
    {
      var input := ReadDetached();
      ghost var r := ProcessRun(setup, State(Holding));
      assert r == Streaming.Filter(filter.Kernel(), filter.History() + Samples(sdr, input), filter.phase);
      outputLen := FilterApart(input);
    }

    /** Middle of the loop, outside any mutex: filter the detached block and write the output. */
    method ProcessBlock()
      requires Valid() && queue.detachedNode != null
      modifies this`destination, this`written, FilterRepr()
      ensures Valid() && QueueSpec.Valid(old(State(Holding)).queue)
      ensures State(Written) == CoreStep(setup, old(State(Holding)), Process)
      ensures queue.detachedNode != null
    {
      QueueFits();
      ProcessIs(setup, State(Holding));
      ghost var r := ProcessRun(setup, State(Holding));
      var outputLen := FilterDetached();
      Append(filter.output[..outputLen]);
    }

    /** End of the loop: the block goes back to the queue. */
    method CompleteBlock()
      requires Valid() && queue.detachedNode != null
      modifies queue.Repr()
      ensures Valid() && QueueSpec.Valid(old(State(Written)).queue)
      ensures State(Ready) == CoreStep(setup, old(State(Written)), Complete)
      ensures queue.detachedNode == null
    {
      QueueFits();
      CompleteIs(setup, State(Written));
      queue.Complete();
    }

    /** The rest of the loop after a successful take. */
    method ServeBlock()
      requires Valid() && queue.detachedNode != null
      modifies this`destination, this`written, queue.Repr(), FilterRepr()
      ensures Valid() && QueueSpec.Valid(old(State(Holding)).queue) && queue.detachedNode == null
      ensures State(Ready) == Served(setup, old(State(Holding)))
    {
      QueueFits();
      ghost var c := State(Holding);
      ProcessBlock();
      ghost var done := State(Written);
      assert done == CoreStep(setup, c, Process);
      CompleteBlock();
    }

    /** One turn of the loop of `callback` after the interrupt. */
    method Turn() returns (ended: bool)
      requires Valid() && queue.detachedNode == null && queue.poisonPill == 1
      modifies this`destination, this`written, queue.Repr(), FilterRepr()
      ensures Valid() && InStep(setup, old(State(Ready)))
      ensures ended ==> State(Ended) == CoreDrained(setup, old(State(Ready)))
      ensures !ended ==>
                && queue.detachedNode == null && queue.poisonPill == 1
                && |State(Ready).queue.pending| < |old(State(Ready)).queue.pending|
                && CoreDrained(setup, State(Ready)) == CoreDrained(setup, old(State(Ready)))
    {
      QueueFits();
      ghost var c := State(Ready);
      TurnIs(setup, c);
      var taken;
      ghost var next;
      taken, next := TakeBlock();
      ghost var held := State(next);
      assert held == CoreStep(setup, c, Take);
      if taken == QueueSpec.Closed {
        return true;
      }
      ServeBlock();
      assert State(Ready) == Served(setup, held);
      ended := false;
    }

    /**
     The loop of `callback` at its start once the interrupt has been sent and no block can arrive any
     more: it works off what is pending and ends at the first take that finds nothing.
     */
    method WorkOff()
      requires Valid() && queue.detachedNode == null && queue.poisonPill == 1
      modifies this`destination, this`written, queue.Repr(), FilterRepr()
      ensures Valid() && InStep(setup, old(State(Ready)))
      ensures State(Ended) == CoreDrained(setup, old(State(Ready)))
    {
      QueueFits();
      ghost var end := CoreDrained(setup, State(Ready));
      var ended := false;
      while !ended
        invariant Valid()
        invariant !ended ==> queue.detachedNode == null && queue.poisonPill == 1
        invariant !ended ==> InStep(setup, State(Ready)) && CoreDrained(setup, State(Ready)) == end
        invariant ended ==> State(Ended) == end
        decreases !ended, |State(Ready).queue.pending|
      {
        ended := Turn();
        QueueFits();
      }
    }

    /** The rest of the loop after the interrupt, wherever the interrupt found it. */
    method Finish(stage: Stage)
      requires Valid() && queue.poisonPill == 1 && InStep(setup, State(stage))
      modifies this`destination, this`written, queue.Repr(), FilterRepr()
      ensures Valid() && InStep(setup, old(State(stage)))
      ensures State(Ended) == CoreDrained(setup, old(State(stage)))
    {
      ghost var c := State(stage);
      RestOfTurn(setup, c);
      match stage
      case Ended =>
      case Ready => WorkOff();
      case Written =>
        CompleteBlock();
        assert State(Ready).queue.poisoned;
        WorkOff();
      case Holding =>
        ServeBlock();
        assert State(Ready).queue.poisoned;
        WorkOff();
    }

    // ---- The same, in terms of the abstract worker ----

    /** Everything the worker may write to. */
    ghost function Memory(): set<object> {
      {this} + queue.Repr() + FilterRepr()
    }

    /** The object is where the abstract worker is. */
    ghost predicate Is(w: W.Worker)
      reads Memory()
    {
      Valid() && setup == w.setup && State(w.core.stage) == w.core
    }

    method Receive(block: seq<uint8>, ghost w: W.Worker)
      requires Is(w) && W.Invariant(w) && |block| <= queue.bufferSize
      modifies queue.Repr()
      ensures Is(W.Step(w, Put(block)))
    {
      Deliver(block, w.core.stage);
    }

    /** One step of the loop of `callback`; a take that finds nothing waits. */
    method Act(stage: Stage, ghost w: W.Worker) returns (next: Stage)
      requires Is(w) && W.Invariant(w) && stage == w.core.stage != Ended
      modifies this`destination, this`written, queue.Repr(), FilterRepr()
      ensures Is(W.Step(w, OwnStep(stage))) && next == W.Step(w, OwnStep(stage)).core.stage
    {
      match stage
      case Ready =>
        var taken;
        ghost var reached;
        taken, reached := TakeBlock();
        next := match taken case Got(_) => Holding case Closed => Ended case Blocked => Ready;
      case Holding =>
        ProcessBlock();
        next := Written;
      case Written =>
        CompleteBlock();
        next := Ready;
    }

    method HangUp(ghost w: W.Worker)
      requires Is(w) && W.Invariant(w)
      modifies this`socketOpen
      ensures Is(W.Step(w, Close))
    {
      CloseOnlyCloses(w);
      CloseSocket(w.core.stage);
    }

    /** `dsp_worker_destroy`, up to the join. */
    method Destroy(stage: Stage, ghost w: W.Worker)
      requires Is(w) && W.Invariant(w) && stage == w.core.stage != Ended
      modifies this`destination, this`written, queue.Repr(), FilterRepr()
      ensures Is(W.Destroyed(w))
    {
      StepKeepsInvariant(w, Interrupt);
      InterruptOnlyPoisons(w);
      DestroyedHasDelivered(w);
      DrainedCore(W.Step(w, Interrupt));
      SendInterrupt(stage);
      Finish(stage);
    }

    /** The end of a client: its socket is closed, its worker destroyed. */
    method Disconnect(stage: Stage, ghost w: W.Worker)
      requires Is(w) && W.Invariant(w) && stage == w.core.stage != Ended
      modifies this`destination, this`written, this`socketOpen, queue.Repr(), FilterRepr()
      ensures Is(W.Disconnected(w))
    {
      StepKeepsInvariant(w, Close);
      CloseOnlyCloses(w);
      HangUp(w);
      Destroy(stage, W.Step(w, Close));
    }
  }
}
