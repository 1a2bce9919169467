/**
 From the request to the stream: what a client of a run was started with, what its worker has written
 and what of that has arrived at its destination.
 */
module ClientStream {
  import opened ServerHistory
  import opened ServerSpec
  import Admission
  import Arrival
  import ClientSetup
  import QueueSpec
  import W = WorkerSpec

  // ---- What of a client's output arrives ----

  /** The server still sends on the client's socket. */
  predicate SocketOpen(story: seq<Entry>, id: nat) {
    HungUp(id) !in story && Left(id) !in story
  }

  /** The client just before its socket was closed; for one whose socket is open, the client as it is. */
  ghost function BeforeClosing(story: seq<Entry>, id: nat): (l: Life)
    ensures Sane(l)
  {
    if SocketOpen(story, id) then LifeOf(story, id) else BeforeClosing(story[..|story| - 1], id)
  }

  /** An open socket is still open, or the client went on from where it was when the socket was closed. */
  ghost predicate ClosingTold(story: seq<Entry>, id: nat) {
    var l, b := LifeOf(story, id), BeforeClosing(story, id);
    && (l.Unborn? ==> SocketOpen(story, id))
    && (l.Life? ==>
          && (l.client.worker.core.open <==> SocketOpen(story, id))
          && b.Life? && b.client.worker.core.open
          && (!SocketOpen(story, id) ==> Arrival.Later(W.Step(b.client.worker, W.Close), l.client.worker)))
  }

  /** A running client's worker has not left its loop. */
  lemma RunningGoesOn(c: Client)
    requires ClientOk(c) && c.running
    ensures c.worker.core.stage != W.Ended
  {
  }

  /** Whatever happens to a client, its worker is later, and its socket closed by nothing but these two. */
  lemma LivedLater(l: Life, last: Entry, id: nat)
    requires Sane(l) && l.Life?
    ensures var r := Lived(l, last, id);
            && r.Life? && Arrival.Later(l.client.worker, r.client.worker)
            && (r.client.worker.core.open
                <==> l.client.worker.core.open && last != HungUp(id) && !(last == Left(id) && l.client.running))
            && (last == HungUp(id) || (last == Left(id) && l.client.running)
                ==> Arrival.Later(W.Step(l.client.worker, W.Close), r.client.worker))
  {
    hide W.Step, W.Disconnected, Arrival.Later, W.Initial, W.Invariant;
    var w := l.client.worker;
    if last == HungUp(id) {
      Arrival.StepIsLater(w, W.Close);
      Arrival.LaterSame(W.Step(w, W.Close));
    } else if last == Left(id) && l.client.running {
      RunningGoesOn(l.client);
      Arrival.DisconnectedIsLater(w);
    } else if last.Worked? && last.id == id && OwnStep(last.step) {
      Arrival.StepIsLater(w, last.step);
    } else if last.Delivered? && l.linked && l.client.running {
      Arrival.StepIsLater(w, W.Put(last.block));
    } else {
      assert Lived(l, last, id).Life? && Lived(l, last, id).client == l.client;
      Arrival.LaterSame(w);
    }
  }

  lemma {:induction false} SocketTold(story: seq<Entry>, id: nat)
    requires WellTold(story)
    ensures ClosingTold(story, id)
  {
    if story == [] {
    } else {
      var before, last := story[..|story| - 1], story[|story| - 1];
      assert story == before + [last];
      SocketTold(before, id);
      LifeTold(before, id);
      ClosingOn(before, last, id);
    }
  }

  lemma ClosingOn(story: seq<Entry>, last: Entry, id: nat)
    requires ClosingTold(story, id) && Tells(story, id)
    requires last.Left? || last.HungUp? ==> LifeOf(story, last.id).Life?
    requires last.Left? ==> LifeOf(story, last.id).client.running
    ensures ClosingTold(story + [last], id)
  {
    var l, b := LifeOf(story, id), BeforeClosing(story, id);
    LifeGoesOn(story, last, id);
    InAppended(story, last, HungUp(id));
    InAppended(story, last, Left(id));
    assert (story + [last])[..|story|] == story;
    if l.Life? {
      LivedLater(l, last, id);
      if !SocketOpen(story, id) {
        Arrival.LaterStill(W.Step(b.client.worker, W.Close), l.client.worker,
                           Lived(l, last, id).client.worker);
      }
    }
  }

  // ---- Main result ----

  /** The server of a configuration serves accepted requests, each with the setup that fits it. */
  ghost function Serves(c: ClientSetup.ServerConfig, m: ClientSetup.MathLib): Gate {
    (r, setup) => ClientSetup.Admitted(r, setup, c, m)
  }

  /** Where a run from the start gets to, and what is to be seen of it. */
  ghost function Reached(admits: Gate, events: seq<Event>): (t: Server)
    ensures WorkersOk(t)
  {
    InitialInvariant(admits);
    Run(Initial(admits), events)
  }

  ghost function Seeing(admits: Gate, events: seq<Event>): seq<Entry> {
    InitialInvariant(admits);
    Story(Initial(admits), events)
  }

  lemma ReachedRecorded(admits: Gate, events: seq<Event>)
    ensures Recorded(Reached(admits, events), Seeing(admits, events))
    ensures Reached(admits, events).admits == admits
  {
    InitialInvariant(admits);
    RunRecorded(Initial(admits), [], events);
    assert [] + Seeing(admits, events) == Seeing(admits, events);
  }

  /** Unless the acceptor hung up on it, a client that has left is where its leaving put it. */
  ghost predicate LeavingTold(story: seq<Entry>, id: nat) {
    var l, b := LifeOf(story, id), BeforeClosing(story, id);
    Left(id) in story && HungUp(id) !in story ==> l.Life? && b.Life? && l.client == Stopped(b.client)
  }

  lemma EndedStays(w: W.Worker, step: W.Event)
    requires W.Invariant(w) && w.core.stage == W.Ended && OwnStep(step)
    ensures W.Step(w, step) == w
  {
  }

  lemma LeftStays(l: Life, last: Entry, id: nat)
    requires Sane(l) && l.Life? && !l.client.running && last != HungUp(id)
    ensures Lived(l, last, id).Life? && Lived(l, last, id).client == l.client
  {
    if last.Worked? && OwnStep(last.step) {
      EndedStays(l.client.worker, last.step);
    }
  }

  lemma {:induction false} LeftTold(story: seq<Entry>, id: nat)
    requires WellTold(story)
    ensures LeavingTold(story, id)
  {
    if story == [] {
    } else {
      var before, last := story[..|story| - 1], story[|story| - 1];
      assert story == before + [last];
      LeftTold(before, id);
      LifeTold(before, id);
      SocketTold(before, id);
      LeavingOn(before, last, id);
    }
  }

  lemma LeavingOn(story: seq<Entry>, last: Entry, id: nat)
    requires LeavingTold(story, id) && ClosingTold(story, id) && Tells(story, id)
    requires last == Left(id) ==> LifeOf(story, id).Life? && LifeOf(story, id).client.running
    ensures LeavingTold(story + [last], id)
  {
    hide W.Step, W.Disconnected, W.Initial, W.Invariant;
    LifeGoesOn(story, last, id);
    InAppended(story, last, HungUp(id));
    InAppended(story, last, Left(id));
    assert (story + [last])[..|story|] == story;
    if Left(id) in story && last != HungUp(id) {
      LeftStays(LifeOf(story, id), last, id);
    }
  }

  /** What the worker of a client has written that was fed `blocks`, of which it lost those numbered `lost`. */
  ghost predicate Converted(k: Client, blocks: seq<W.Block>, lost: seq<int>) {
    var w, taken := k.worker, W.Processed(k.worker);
    && W.ValidSetup(w.setup)
    && QueueSpec.Increasing(taken) && QueueSpec.Below(taken, |blocks|)
    && w.core.written == W.Expected(w.setup, QueueSpec.Blocks(blocks, taken))
    && (!k.running ==>
          && |blocks| == |taken| + |lost|
          && (forall id :: 0 <= id < |blocks| ==> id in taken || id in lost)
          && (lost == [] ==> w.core.written == W.Expected(w.setup, blocks)))
  }

  lemma FedIsConverted(k: Client)
    requires ClientOk(k)
    ensures Converted(k, k.worker.trace.puts, k.worker.trace.lost)
  {
    var w := k.worker;
    W.InvariantMeansExpected(w);
    W.IncreasingPart(w.trace.delivered, w.trace.waiting, W.Processed(w));
    if !k.running {
      forall id | 0 <= id < |w.trace.puts|
        ensures id in W.Processed(w) || id in w.trace.lost
      {
        assert QueueSpec.Accounted(w.trace, id);
      }
      if w.trace.lost == [] {
        W.NothingLostMeansEverythingWritten(w);
      }
    }
  }

  /**
   What of that has arrived, if `before` is the worker just before the socket was closed: in a file
   all of it, on a socket the down-conversion of the first blocks taken, those processed by then. That
   is everything exactly when the blocks processed later do not complete a window of the filter.
   */
  ghost predicate Arrived(k: Client, blocks: seq<W.Block>, before: W.Worker) {
    var w, taken, n := k.worker, W.Processed(k.worker), |W.Processed(before)|;
    && W.ValidSetup(w.setup) && QueueSpec.Below(taken, |blocks|) && n <= |taken| && before.setup == w.setup
    && w.core.arrived
       == (if w.setup.destination == W.File then w.core.written
           else W.Expected(w.setup, QueueSpec.Blocks(blocks, taken[..n])))
    && (w.setup.destination == W.Socket ==> w.core.arrived == before.core.written)
    && (w.core.arrived == w.core.written
        <==> w.setup.destination == W.File || Arrival.Silent(before, QueueSpec.Blocks(blocks, taken[n..])))
  }

  lemma OpenArrived(k: Client)
    requires ClientOk(k) && k.worker.core.open
    ensures Arrived(k, k.worker.trace.puts, k.worker)
  {
    var w := k.worker;
    W.InvariantMeansExpected(w);
    Arrival.SameWrittenIffSilent(w, w);
    assert W.Processed(w)[..|W.Processed(w)|] == W.Processed(w);
  }

  lemma ClosedArrived(k: Client, before: W.Worker)
    requires ClientOk(k) && W.Invariant(before) && before.core.open
    requires Arrival.Later(W.Step(before, W.Close), k.worker)
    ensures Arrived(k, k.worker.trace.puts, before)
  {
    var w := k.worker;
    Arrival.ArrivesUntilClosed(before, w);
    W.InvariantMeansExpected(before);
    W.BlocksKept(before.trace.puts, w.trace.puts, W.Processed(before));
    assert W.Processed(w)[..|W.Processed(before)|] == W.Processed(before);
  }

  /**
   What a client has been sent of what it received. If its socket was closed by its leaving, it has all
   of the output exactly when the blocks then held or pending complete no window.
   */
  ghost predicate Sent(story: seq<Entry>, k: Client) {
    var before := BeforeClosing(story, k.id);
    && Converted(k, Received(story, k.id), Overwritten(story, k.id))
    && before.Life? && before.client.worker.core.open && (SocketOpen(story, k.id) ==> before.client == k)
    && Arrived(k, Received(story, k.id), before.client.worker)
    && (Left(k.id) in story && HungUp(k.id) !in story ==> LeftWith(k, before.client.worker))
  }

  ghost predicate LeftWith(k: Client, before: W.Worker) {
    k.worker.core.arrived == k.worker.core.written
    <==> k.worker.setup.destination == W.File || Arrival.Silent(before, Arrival.Unfinished(before.core))
  }

  lemma LifeIsSent(story: seq<Entry>, k: Client)
    requires WellTold(story) && LifeOf(story, k.id).Life? && LifeOf(story, k.id).client == k
    ensures Sent(story, k)
  {
    LifeTold(story, k.id);
    LossesTold(story, k.id);
    SocketTold(story, k.id);
    FedIsConverted(k);
    if SocketOpen(story, k.id) {
      OpenArrived(k);
    } else {
      ClosedArrived(k, BeforeClosing(story, k.id).client.worker);
    }
    if Left(k.id) in story && HungUp(k.id) !in story {
      LeftTold(story, k.id);
      StoppedWith(k, BeforeClosing(story, k.id).client);
    }
  }

  lemma StoppedWith(k: Client, before: Client)
    requires ClientOk(before) && before.worker.core.open && k == Stopped(before)
    ensures LeftWith(k, before.worker)
  {
    RunningGoesOn(before);
    StoppedOk(before);
    hide W.Disconnected, W.Invariant;
    Arrival.LeavingArrives(before.worker);
  }

  /** Request and setup of a client, as the story has them. */
  ghost predicate StartedAs(story: seq<Entry>, k: Client, c: ClientSetup.ServerConfig, m: ClientSetup.MathLib) {
    exists r ::
      && Started(k.id, r, k.worker.setup) in story
      && ClientSetup.Admitted(r, k.worker.setup, c, m) && k.band == r.bandFreq as nat
      && ArrivesAsAsked(story, k, r)
  }

  /** With destination 0, a file, everything arrives; with 1, the socket, what was written before its close. */
  ghost predicate ArrivesAsAsked(story: seq<Entry>, k: Client, r: Admission.Request) {
    var before := BeforeClosing(story, k.id);
    && before.Life?
    && (r.destination == 0 ==> k.worker.core.arrived == k.worker.core.written)
    && (r.destination == 1 ==> k.worker.core.arrived == before.client.worker.core.written)
  }

  lemma PresentRecorded(s: Server, story: seq<Entry>, k: Client)
    requires Recorded(s, story) && Present(s, k)
    ensures var l := LifeOf(story, k.id);
            && l.Life? && l.client == k
            && s.admits(l.request, k.worker.setup) && k.band == l.request.bandFreq as nat
  {
    if k in s.clients {
      var i := FindClient(s.clients, k);
      assert ClientRecorded(s, story, s.clients[i], true);
    }
  }

  /** What the story says of a client that is present. */
  lemma RecordedTells(s: Server, story: seq<Entry>, k: Client, c: ClientSetup.ServerConfig, m: ClientSetup.MathLib)
    requires Recorded(s, story) && Present(s, k) && s.admits == Serves(c, m)
    ensures StartedAs(story, k, c, m)
    ensures k.running <==> Left(k.id) !in story
    ensures Sent(story, k)
  {
    PresentRecorded(s, story, k);
    StartTold(story, k.id);
    LifeTold(story, k.id);
    LifeIsSent(story, k);
    var r := LifeOf(story, k.id).request;
    hide Converted, Received, Overwritten, W.ValidSetup, W.Expected;
    assert StartOf(LifeOf(story, k.id), k.id) == Started(k.id, r, k.worker.setup);
    assert Serves(c, m)(r, k.worker.setup) == ClientSetup.Admitted(r, k.worker.setup, c, m);
  }

  /**
   From the request to the stream, in every run whatsoever: a client has the setup that its own
   accepted request calls for; its worker was fed exactly the blocks that the device delivered while
   the client was linked and had not left; and it has written exactly the down-conversion of those
   that it took, in their order. For a client that has left these are all of them, less only what its
   full queue overwrote. All of this output is in the client's file; on a socket there is the
   down-conversion of the blocks processed before the server closed it.
   */
  lemma ClientReceivesDownConversion(c: ClientSetup.ServerConfig, m: ClientSetup.MathLib, events: seq<Event>,
                                     k: Client)
    requires Present(Reached(Serves(c, m), events), k)
    ensures var story := Seeing(Serves(c, m), events);
            && StartedAs(story, k, c, m)
            && (k.running <==> Left(k.id) !in story)
            && Sent(story, k)
  {
    ReachedRecorded(Serves(c, m), events);
    RecordedTells(Reached(Serves(c, m), events), Seeing(Serves(c, m), events), k, c, m);
  }

  // ---- A client that leaves with blocks in its queue ----

  /** A linked client that has one block in its queue, and has taken none. */
  ghost predicate HasOneBlock(s: Server, setup: W.Setup, block: W.Block)
    requires W.ValidSetup(setup) && W.Invariant(W.Initial(setup))
  {
    && s.acceptor == Accepting && |s.clients| == 1 && s.clients[0].running
    && s.clients[0].worker == W.Step(W.Initial(setup), W.Put(block))
  }

  lemma GetsOneBlock(admits: Gate, r: Admission.Request, setup: W.Setup, block: W.Block)
    requires admits(r, setup) && r.bandFreq != 0 && W.ValidSetup(setup)
    ensures W.Invariant(W.Initial(setup))
    ensures HasOneBlock(Reached(admits, [Start(r, setup), Register(true), Deliver(block)]), setup, block)
  {
    hide ClientOk, W.Initial, W.Step;
    InitialInvariant(admits);
    W.InitialInvariant(setup);
    var s := Initial(admits);
    var s1 := Next(s, Start(r, setup));
    var s2 := Next(s1, Register(true));
    var s3 := Next(s2, Deliver(block));
    assert s2.clients == [NewClient(0, r, setup)] && s2.device.On?;
    assert s3.clients == [Fed(s2.clients[0], block)];
    RunThree(s, Start(r, setup), Register(true), Deliver(block));
  }

  lemma RunThree(s: Server, a: Event, b: Event, c: Event)
    requires WorkersOk(s)
    ensures Run(s, [a, b, c]) == Next(Next(Next(s, a), b), c)
  {
    assert [a, b, c][1..] == [b, c] && [b, c][1..] == [c] && [c][1..] == [];
    var s1 := Next(s, a);
    var s2 := Next(s1, b);
    assert Run(s2, [c]) == Run(Next(s2, c), []);
    assert Run(s1, [b, c]) == Run(s2, [c]);
  }

  lemma LinkedLeaves(s: Server, i: nat)
    requires WorkersOk(s) && Enabled(s, Leave(i))
    ensures Step(s, Leave(i)).clients == s.clients[i := Stopped(s.clients[i])]
  {
  }

  /** The first client's one block was down-converted when it left, and nothing arrived. */
  ghost predicate OutputLost(s: Server, setup: W.Setup, block: W.Block)
    requires W.ValidSetup(setup)
  {
    && s.clients != []
    && var w := s.clients[0].worker;
    && w.trace.puts == [block] && w.trace.lost == []
    && w.core.written == W.Expected(setup, [block]) != [] && w.core.arrived == []
  }

  lemma OnlyClientLeaves(s: Server, setup: W.Setup, block: W.Block)
    requires WorkersOk(s) && W.ValidSetup(setup) && W.Invariant(W.Initial(setup)) && HasOneBlock(s, setup, block)
    requires setup.destination == W.Socket && W.Samples(setup.sdr, block) != []
    ensures Enabled(s, Leave(0)) && OutputLost(Step(s, Leave(0)), setup, block)
  {
    OneBlockLost(s.clients[0], setup, block);
    hide W.Step, W.Initial, W.Invariant, W.Samples, W.Expected, Stopped, Step;
    LinkedLeaves(s, 0);
  }

  /**
   A client that asked for its stream on the socket, and leaves before its worker has taken the one
   block that the device delivered: all of the block's samples are down-converted, and nothing arrives.
   */
  lemma LeavingLosesOutput(admits: Gate, r: Admission.Request, setup: W.Setup, block: W.Block)
    requires admits(r, setup) && r.bandFreq != 0 && W.ValidSetup(setup)
    requires setup.destination == W.Socket && W.Samples(setup.sdr, block) != []
    ensures var s := Reached(admits, [Start(r, setup), Register(true), Deliver(block)]);
            Enabled(s, Leave(0)) && OutputLost(Step(s, Leave(0)), setup, block)
  {
    hide Reached, W.Invariant, W.Initial, HasOneBlock, OutputLost, W.Samples, ClientOk, Step;
    GetsOneBlock(admits, r, setup, block);
    OnlyClientLeaves(Reached(admits, [Start(r, setup), Register(true), Deliver(block)]), setup, block);
  }

  lemma OneBlockUnfinished(setup: W.Setup, block: W.Block)
    requires W.ValidSetup(setup) && W.Invariant(W.Initial(setup))
    ensures var w := W.Step(W.Initial(setup), W.Put(block));
            && w.setup == setup && w.trace.puts == [block] && w.trace.lost == []
            && Arrival.Unfinished(w.core) == [block] && w.core.open && w.core.written == []
            && |w.core.history| == |setup.taps| - 1
  {
  }

  lemma OneBlockLost(c: Client, setup: W.Setup, block: W.Block)
    requires ClientOk(c) && c.running && W.ValidSetup(setup) && W.Invariant(W.Initial(setup))
    requires c.worker == W.Step(W.Initial(setup), W.Put(block))
    requires setup.destination == W.Socket && W.Samples(setup.sdr, block) != []
    ensures var w := Stopped(c).worker;
            && w.trace.puts == [block] && w.trace.lost == []
            && w.core.written == W.Expected(setup, [block]) != [] && w.core.arrived == []
  {
    OneBlockUnfinished(setup, block);
    assert W.Stream(setup.sdr, [block]) == W.Samples(setup.sdr, block) by {
      assert [block][..0] == [];
    }
    RunningGoesOn(c);
    StoppedOk(c);
    hide W.Step, W.Disconnected, W.Initial, W.Invariant, W.Expected, W.Stream, W.Samples;
    Arrival.LeavingArrives(c.worker);
    W.NothingLostMeansEverythingWritten(Stopped(c).worker);
  }
}
