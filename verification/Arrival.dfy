/**
 What of a worker's output arrives at its destination: all of it in a file, but on a socket only what
 was written before the socket was closed, although the worker goes on with what is in its queue.
 */
module Arrival {
  import opened ComplexNumbers
  import opened DotProducts
  import opened Streaming
  import opened WorkerSpec
  import QueueSpec

  /** `w'` is where `w` got to, by steps of any kind. */
  ghost predicate Later(w: Worker, w': Worker) {
    && w'.setup == w.setup && w.trace.puts <= w'.trace.puts && Processed(w) <= Processed(w')
    && (w'.core.open ==> w.core.open)
    && (!Reaches(w.setup, w.core) ==> w'.core.arrived == w.core.arrived)
  }

  lemma LaterSame(w: Worker)
    ensures Later(w, w)
  {
  }

  lemma LaterStill(a: Worker, b: Worker, c: Worker)
    requires Later(a, b) && Later(b, c)
    ensures Later(a, c)
  {
  }

  lemma StepIsLater(w: Worker, e: Event)
    requires Invariant(w)
    ensures Later(w, Step(w, e)) && (Step(w, e).core.open <==> w.core.open && e != Close)
  {
    hide Filter, QueueSpec.Accounted, QueueSpec.Increasing, QueueSpec.Blocks;
  }

  lemma DisconnectedIsLater(w: Worker)
    requires Invariant(w) && w.core.stage != Ended
    ensures Later(Step(w, Close), Disconnected(w)) && Later(w, Disconnected(w)) && !Disconnected(w).core.open
  {
    CloseOnlyCloses(w);
    DisconnectedHasDelivered(w);
    StepIsLater(w, Close);
    LaterStill(w, Step(w, Close), Disconnected(w));
  }

  /** The blocks processed between two states. */
  ghost function Since(w: Worker, w': Worker): seq<Block>
    requires Later(w, w') && QueueSpec.Below(w'.trace.delivered, |w'.trace.puts|)
  {
    QueueSpec.Blocks(w'.trace.puts, Processed(w')[|Processed(w)|..])
  }

  lemma {:induction false} StreamConcat(sdr: SdrType, a: seq<Block>, b: seq<Block>)
    ensures Stream(sdr, a + b) == Stream(sdr, a) + Stream(sdr, b)
  {
    if b == [] {
      assert a + b == a;
    } else {
      var front, last := b[..|b| - 1], b[|b| - 1];
      assert a + b == a + front + [last];
      assert (a + front + [last])[..|a + front|] == a + front;
      StreamConcat(sdr, a, front);
    }
  }

  lemma BlocksSince(w: Worker, w': Worker)
    requires Invariant(w) && Invariant(w') && Later(w, w')
    ensures ProcessedBlocks(w') == ProcessedBlocks(w) + Since(w, w')
  {
  }

  lemma StreamSince(prefix: seq<Complex>, sdr: SdrType, a: seq<Block>, b: seq<Block>)
    ensures prefix + Stream(sdr, a + b) == prefix + Stream(sdr, a) + Stream(sdr, b)
  {
    StreamConcat(sdr, a, b);
  }

  /** Filtering more blocks from where the batch left off. */
  lemma FilteredSince(s: Setup, blocks: seq<Block>, more: seq<Block>, c: Core, c': Core)
    requires ValidSetup(s) && Filtered(s, blocks, c) && Filtered(s, blocks + more, c')
    ensures c'.written == c.written + Filter(SetupKernel(s), c.history + Stream(s.sdr, more), c.phase).out
  {
    hide Stream, Filter;
    StreamSince(Zeros(|s.taps| - 1), s.sdr, blocks, more);
    FilterSplits(SetupKernel(s), Zeros(|s.taps| - 1) + Stream(s.sdr, blocks), Stream(s.sdr, more), ONE);
  }

  /** What has been written between two states is the filter's output for the blocks processed since. */
  lemma WrittenSince(w: Worker, w': Worker)
    requires Invariant(w) && Invariant(w') && Later(w, w')
    ensures var x := w.core.history + Stream(w.setup.sdr, Since(w, w'));
            w'.core.written == w.core.written + Filter(SetupKernel(w.setup), x, w.core.phase).out
  {
    BlocksSince(w, w');
    hide Filtered, Filter, QueueSpec.Accounted, QueueSpec.Increasing, QueueSpec.Blocks;
    FilteredSince(w.setup, ProcessedBlocks(w), Since(w, w'), w.core, w'.core);
  }

  /** The blocks do not complete a window of the filter. */
  ghost predicate Silent(w: Worker, blocks: seq<Block>) {
    |w.core.history| + |Stream(w.setup.sdr, blocks)| < |w.setup.taps|
  }

  lemma SameWrittenIffSilent(w: Worker, w': Worker)
    requires Invariant(w) && Invariant(w') && Later(w, w')
    ensures w'.core.written == w.core.written <==> Silent(w, Since(w, w'))
  {
    WrittenSince(w, w');
    var x := w.core.history + Stream(w.setup.sdr, Since(w, w'));
    FilterCounts(SetupKernel(w.setup), x, w.core.phase);
  }

  /**
   A socket that is open in `w` is closed next, and `w'` is any later state. A file has all of the
   output. A socket has what had been written before it was closed, and that is all of the output
   exactly when the blocks processed since do not complete a window.
   */
  lemma ArrivesUntilClosed(w: Worker, w': Worker)
    requires Invariant(w) && w.core.open && Invariant(w') && Later(Step(w, Close), w')
    ensures Later(w, w')
    ensures w'.core.arrived == if w.setup.destination == File then w'.core.written else w.core.written
    ensures w'.core.arrived == w'.core.written <==> w.setup.destination == File || Silent(w, Since(w, w'))
  {
    CloseOnlyCloses(w);
    SameWrittenIffSilent(w, w');
  }

  /** The blocks a worker has taken or will take, short of new ones, and has not processed. */
  function Unfinished(c: Core): seq<Block> {
    (if c.stage == Holding && c.queue.detached.Some? then [c.queue.detached.value] else []) + c.queue.pending
  }

  /** Leaving: on a socket everything arrives exactly when the blocks held or pending complete no window. */
  lemma LeavingArrives(w: Worker)
    requires Invariant(w) && w.core.open && w.core.stage != Ended
    ensures var d := Disconnected(w);
            && Invariant(d)
            && d.core.arrived == (if w.setup.destination == File then d.core.written else w.core.written)
            && (d.core.arrived == d.core.written <==> w.setup.destination == File || Silent(w, Unfinished(w.core)))
  {
    DisconnectedHasDelivered(w);
    DisconnectedIsLater(w);
    ArrivesUntilClosed(w, Disconnected(w));
    UnfinishedIsSince(w);
  }

  /** What a worker holds or has pending, by put number. */
  function UnfinishedIds(w: Worker): seq<nat> {
    (if w.core.stage == Holding && w.trace.delivered != [] then [w.trace.delivered[|w.trace.delivered| - 1]] else [])
    + w.trace.waiting
  }

  lemma UnfinishedBlocks(w: Worker)
    requires Invariant(w)
    ensures QueueSpec.Below(UnfinishedIds(w), |w.trace.puts|)
    ensures Unfinished(w.core) == QueueSpec.Blocks(w.trace.puts, UnfinishedIds(w))
    ensures Processed(w) + UnfinishedIds(w) == w.trace.delivered + w.trace.waiting
  {
    hide Filtered, QueueSpec.Accounted, QueueSpec.Increasing;
  }

  lemma UnfinishedIsSince(w: Worker)
    requires Invariant(w) && w.core.stage != Ended
    ensures var d := Disconnected(w);
            Invariant(d) && Later(w, d) && Since(w, d) == Unfinished(w.core)
  {
    var d := Disconnected(w);
    DisconnectedHasDelivered(w);
    DisconnectedIsLater(w);
    UnfinishedBlocks(w);
    hide Invariant, QueueSpec.Blocks;
    assert Processed(d)[|Processed(w)|..] == UnfinishedIds(w);
  }
}
