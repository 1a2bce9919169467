/**
 The server's clients and its device as a step machine. Each step is one section under the server
 mutex, one step of a worker's own loop, or the device stop made by the shutdown thread; they come
 in any order that the program allows.
 */
module ServerSpec {
  import W = WorkerSpec
  import Admission

  /** A client: its number, the band it asked for, whether it is marked as running, and its dsp worker. */
  datatype Client = Client(id: nat, band: nat, running: bool, worker: W.Worker)

  /** Which requests are served, and with which setup. */
  type Gate = (Admission.Request, W.Setup) -> bool

  /** The thread of `shutdown_callback`: about to stop the device, about to lock, done but not joined. */
  datatype ShutdownThread = NoThread | Stopping | Releasing | Finished

  datatype Device = Off | On(freq: nat)

  /**
   The acceptor thread: waiting for connections; holding a client whose threads run but which is not
   linked yet; waiting for the device to have stopped; joining the thread of a client it turns away;
   draining at the end; done. Two more places it never comes out of: it holds the mutex and joins a
   shutdown thread that needs the mutex to finish, on behalf of a newcomer or at the very end.
   */
  datatype Acceptor =
    | Accepting
    | Starting(client: Client)
    | Waiting(client: Client)
    | TurningAway(client: Client)
    | Draining
    | Done
    | Joining(client: Client)
    | JoiningAtEnd

  datatype Server = Server(
    admits: Gate, counter: nat, clients: seq<Client>, acceptor: Acceptor, thread: ShutdownThread,
    sdrStopped: bool, currentBandFreq: nat, device: Device)

  datatype Event =
    | Start(request: Admission.Request, setup: W.Setup)
    | Refuse
    | Register(deviceStarts: bool)
    | Resume(deviceStarts: bool)
    | Leave(index: nat)
    | LeaveUnlinked
    | Dismiss
    | StopDevice
    | Release
    | Deliver(block: W.Block)
    | Work(index: nat, step: W.Event)
    | WorkUnlinked(step: W.Event)
    | Shutdown
    | HangUp
    | DrainHead
    | DrainEnd

  function Initial(admits: Gate): Server {
    Server(admits, 0, [], Accepting, NoThread, true, 0, Off)
  }

  ghost predicate AnyRunning(clients: seq<Client>) {
    exists i :: 0 <= i < |clients| && clients[i].running
  }

  /**
   A client's worker is alive exactly while the client is running; afterwards the socket is closed and
   the worker has worked off its queue.
   */
  ghost predicate ClientOk(c: Client) {
    && W.Invariant(c.worker)
    && (c.running <==> !c.worker.core.queue.poisoned)
    && (!c.running ==> c.worker.core.stage == W.Ended && c.worker.trace.waiting == [] && !c.worker.core.open)
  }

  predicate HasClient(a: Acceptor) {
    a.Starting? || a.Waiting? || a.TurningAway? || a.Joining?
  }

  /** The acceptor has the mutex and does not give it back. */
  predicate LockedUp(s: Server) {
    s.acceptor.Joining? || s.acceptor == JoiningAtEnd
  }

  /** Every client's worker is in order. */
  ghost predicate WorkersOk(s: Server) {
    && (forall i :: 0 <= i < |s.clients| ==> ClientOk(s.clients[i]))
    && (HasClient(s.acceptor) ==> ClientOk(s.acceptor.client))
  }

  // ---- Steps ----

  /** `cleanup_terminated_threads`: clients that are no longer running are unlinked. */
  function Running(clients: seq<Client>): seq<Client> {
    if clients == [] then []
    else if clients[0].running then [clients[0]] + Running(clients[1..])
    else Running(clients[1..])
  }

  /** Joining the shutdown thread, if there is one, returns; the thread needs the mutex to finish. */
  predicate JoinReturns(t: ShutdownThread) {
    t == NoThread || t == Finished
  }

  /** Joins the shutdown thread, starts the device and links its first client. */
  function StartDevice(s: Server, c: Client, deviceStarts: bool): Server {
    if !JoinReturns(s.thread) then
      s.(acceptor := Joining(c))
    else if deviceStarts then
      s.(thread := NoThread, device := On(c.band), clients := [c], sdrStopped := false, acceptor := Accepting)
    else
      s.(thread := NoThread, acceptor := TurningAway(c))
  }

  /** The mutex section of `handle_new_client`, up to the wait if there is one. */
  function RegisterClient(s: Server, c: Client, deviceStarts: bool): Server {
    var s' := s.(clients := Running(s.clients));
    if s'.clients == [] then
      var s'' := s'.(currentBandFreq := c.band);
      if s.sdrStopped then StartDevice(s'', c, deviceStarts) else s''.(acceptor := Waiting(c))
    else if s.currentBandFreq != 0 && s.currentBandFreq != c.band then
      s'.(acceptor := TurningAway(c))
    else
      s'.(clients := s'.clients + [c], acceptor := Accepting)
  }

  /** The exit section of `tcp_worker` for one client: its socket is closed, its worker interrupted and joined. */
  ghost function Stopped(c: Client): Client
    requires ClientOk(c)
  {
    c.(running := false, worker := W.Disconnected(c.worker))
  }

  /** The end of that section: when no linked client is running a shutdown thread is created, once. */
  ghost function AfterExit(s: Server): Server {
    if !AnyRunning(s.clients) && s.thread == NoThread then s.(thread := Stopping) else s
  }

  ghost function ClientLeaves(s: Server, i: nat): Server
    requires i < |s.clients| && ClientOk(s.clients[i])
  {
    AfterExit(s.(clients := s.clients[i := Stopped(s.clients[i])]))
  }

  ghost function NewcomerLeaves(s: Server): Server
    requires HasClient(s.acceptor) && ClientOk(s.acceptor.client)
  {
    AfterExit(s.(acceptor := WithClient(s.acceptor, Stopped(s.acceptor.client))))
  }

  /** `sdr_callback`: the block goes into the queue of every running client. */
  ghost function Fed(c: Client, block: W.Block): Client
    requires ClientOk(c)
  {
    if c.running then c.(worker := W.Step(c.worker, W.Put(block))) else c
  }

  ghost function FedAll(clients: seq<Client>, block: W.Block): (r: seq<Client>)
    requires forall i :: 0 <= i < |clients| ==> ClientOk(clients[i])
    ensures |r| == |clients|
    ensures forall i :: 0 <= i < |r| ==> !clients[i].running ==> r[i] == clients[i]
  {
    seq(|clients|, i requires 0 <= i < |clients| => Fed(clients[i], block))
  }

  /** Steps a worker makes by itself. */
  predicate OwnStep(e: W.Event) {
    e.Take? || e.Process? || e.Complete?
  }

  ghost predicate Enabled(s: Server, e: Event) {
    match e
    case Start(r, setup) =>
      s.acceptor == Accepting && s.admits(r, setup) && r.bandFreq != 0 && W.ValidSetup(setup)
    case Refuse => s.acceptor == Accepting
    case Register(_) => s.acceptor.Starting?
    case Resume(_) => s.acceptor.Waiting? && s.sdrStopped
    case Leave(i) => !LockedUp(s) && i < |s.clients| && s.clients[i].running
    case LeaveUnlinked => !LockedUp(s) && HasClient(s.acceptor) && s.acceptor.client.running
    case Dismiss => s.acceptor.TurningAway? && !s.acceptor.client.running
    case StopDevice => s.thread == Stopping
    case Release => !LockedUp(s) && s.thread == Releasing
    case Deliver(_) => !LockedUp(s) && s.device.On?
    case Work(i, step) => i < |s.clients| && OwnStep(step)
    case WorkUnlinked(step) => HasClient(s.acceptor) && OwnStep(step)
    case Shutdown => s.acceptor == Accepting
    case HangUp => s.acceptor == Draining && s.clients != []
    case DrainHead => s.acceptor == Draining && s.clients != [] && !s.clients[0].running
    case DrainEnd => s.acceptor == Draining && s.clients == [] && s.sdrStopped
  }

  function WithClient(a: Acceptor, c: Client): Acceptor
    requires HasClient(a)
  {
    match a
    case Starting(_) => Starting(c)
    case Waiting(_) => Waiting(c)
    case TurningAway(_) => TurningAway(c)
    case Joining(_) => Joining(c)
  }

  function NewClient(id: nat, r: Admission.Request, setup: W.Setup): Client
    requires W.ValidSetup(setup)
  {
    Client(id, r.bandFreq as nat, true, W.Initial(setup))
  }

  /** The server's end of a client's socket no longer sends. */
  ghost function Muted(c: Client): Client
    requires ClientOk(c)
  {
    c.(worker := W.Step(c.worker, W.Close))
  }

  ghost function Step(s: Server, e: Event): Server
    requires WorkersOk(s) && Enabled(s, e)
  {
    match e
    case Start(r, setup) => s.(counter := s.counter + 1, acceptor := Starting(NewClient(s.counter, r, setup)))
    case Refuse => s.(counter := s.counter + 1)
    case Register(deviceStarts) => RegisterClient(s, s.acceptor.client, deviceStarts)
    case Resume(deviceStarts) => StartDevice(s, s.acceptor.client, deviceStarts)
    case Leave(i) => ClientLeaves(s, i)
    case LeaveUnlinked => NewcomerLeaves(s)
    case Dismiss => s.(acceptor := Accepting)
    case StopDevice => s.(thread := Releasing, device := Off)
    case Release => s.(thread := Finished, sdrStopped := true)
    case Deliver(block) => s.(clients := FedAll(s.clients, block))
    case Work(i, step) =>
      var c := s.clients[i];
      s.(clients := s.clients[i := c.(worker := W.Step(c.worker, step))])
    case WorkUnlinked(step) =>
      var c := s.acceptor.client;
      s.(acceptor := WithClient(s.acceptor, c.(worker := W.Step(c.worker, step))))
    case Shutdown => s.(acceptor := Draining)
    case HangUp => s.(clients := s.clients[0 := Muted(s.clients[0])])
    case DrainHead => s.(clients := s.clients[1..])
    case DrainEnd =>
      if JoinReturns(s.thread) then s.(thread := NoThread, acceptor := Done) else s.(acceptor := JoiningAtEnd)
  }

  /** If the acceptor gets the mutex next, it joins a shutdown thread that still needs the mutex. */
  ghost predicate JoinLocksUp(s: Server) {
    && s.sdrStopped && !JoinReturns(s.thread)
    && ((s.acceptor.Starting? && Running(s.clients) == [])
        || s.acceptor.Waiting? || (s.acceptor == Draining && s.clients == []))
  }

  // ---- The invariant ----

  /** Device, shutdown thread and running clients fit together. */
  ghost predicate Lifecycle(s: Server) {
    && (AnyRunning(s.clients) ==> !s.sdrStopped && s.thread == NoThread && s.device == On(s.currentBandFreq))
    && (!s.sdrStopped && !AnyRunning(s.clients) ==> s.thread == Stopping || s.thread == Releasing)
    && (s.sdrStopped ==> (s.thread == NoThread || s.thread == Finished) && s.device == Off)
    && (s.thread == Stopping ==> s.device.On?)
    && (s.thread == Releasing ==> s.device.Off?)
    && (s.thread == Finished ==> s.sdrStopped)
    && (s.acceptor == Done ==> s.clients == [] && s.sdrStopped && s.thread == NoThread)
    && !LockedUp(s)
  }

  ghost predicate OfBand(clients: seq<Client>, band: nat) {
    forall i :: 0 <= i < |clients| ==> clients[i].band == band != 0
  }

  /** All linked clients share the server's band, and so does the device unless the acceptor waits. */
  ghost predicate OneBand(s: Server) {
    && OfBand(s.clients, s.currentBandFreq)
    && (s.device.On? && !s.acceptor.Waiting? ==> s.device.freq == s.currentBandFreq)
    && (s.acceptor.Waiting? ==> s.clients == [] && s.acceptor.client.band == s.currentBandFreq)
    && (HasClient(s.acceptor) ==> s.acceptor.client.band != 0)
  }

  ghost predicate Invariant(s: Server) {
    WorkersOk(s) && Lifecycle(s) && OneBand(s)
  }

  /**
   The condition under which a step keeps the invariant: the device does not start for a client that
   is no longer running; and a client that is not linked leaves only while another runs or a shutdown
   thread exists.
   */
  ghost predicate Safe(s: Server, e: Event) {
    match e
    case Register(deviceStarts) =>
      Running(s.clients) == [] && s.sdrStopped && s.acceptor.Starting? && deviceStarts ==> s.acceptor.client.running
    case Resume(deviceStarts) => s.acceptor.Waiting? && deviceStarts ==> s.acceptor.client.running
    case LeaveUnlinked => AnyRunning(s.clients) || s.thread != NoThread
    case _ => true
  }

  // ---- Clients ----

  lemma {:induction false} RunningFacts(clients: seq<Client>)
    ensures forall i :: 0 <= i < |Running(clients)| ==> Running(clients)[i].running && Running(clients)[i] in clients
    ensures Running(clients) == [] <==> !AnyRunning(clients)
  {
    if clients == [] {
    } else {
      RunningFacts(clients[1..]);
      assert forall i :: 0 <= i < |clients[1..]| ==> clients[1..][i] == clients[i + 1];
      assert AnyRunning(clients) <==> clients[0].running || AnyRunning(clients[1..]) by {
        if AnyRunning(clients) && !clients[0].running {
          var i :| 0 <= i < |clients| && clients[i].running;
          assert clients[1..][i - 1].running;
        }
      }
    }
  }

  /** Cleanup looks at each client for itself and keeps their order: of one it keeps it exactly if it runs. */
  lemma {:induction false} RunningJoins(front: seq<Client>, back: seq<Client>)
    ensures Running(front + back) == Running(front) + Running(back)
    ensures |back| == 1 ==> Running(back) == if back[0].running then back else []
  {
    if front == [] {
      assert front + back == back;
    } else {
      assert (front + back)[1..] == front[1..] + back;
      RunningJoins(front[1..], back);
    }
  }

  lemma NewClientOk(id: nat, r: Admission.Request, setup: W.Setup)
    requires W.ValidSetup(setup)
    ensures ClientOk(NewClient(id, r, setup))
  {
    W.InitialInvariant(setup);
  }

  lemma StoppedOk(c: Client)
    requires ClientOk(c) && c.running
    ensures ClientOk(Stopped(c))
    ensures Stopped(c).worker.trace.delivered == c.worker.trace.delivered + c.worker.trace.waiting
    ensures Stopped(c).worker.trace.lost == c.worker.trace.lost
    ensures Stopped(c).worker.trace.puts == c.worker.trace.puts
    ensures Stopped(c).worker.setup == c.worker.setup
  {
    W.DisconnectedHasDelivered(c.worker);
  }

  lemma MutedOk(c: Client)
    requires ClientOk(c)
    ensures ClientOk(Muted(c)) && Muted(c).worker.trace == c.worker.trace && Muted(c).worker.setup == c.worker.setup
  {
    W.StepKeepsInvariant(c.worker, W.Close);
    W.CloseOnlyCloses(c.worker);
  }

  lemma FedOk(c: Client, block: W.Block)
    requires ClientOk(c)
    ensures ClientOk(Fed(c, block))
    ensures Fed(c, block).running == c.running && Fed(c, block).band == c.band && Fed(c, block).id == c.id
  {
    if c.running {
      W.StepKeepsInvariant(c.worker, W.Put(block));
    }
  }

  lemma WorkedOk(c: Client, step: W.Event)
    requires ClientOk(c) && OwnStep(step)
    ensures ClientOk(c.(worker := W.Step(c.worker, step)))
  {
    W.StepKeepsInvariant(c.worker, step);
  }

  /** Same clients up to the state of their workers. */
  ghost predicate SameClients(a: seq<Client>, b: seq<Client>) {
    && |a| == |b|
    && forall i :: 0 <= i < |a| ==> a[i].id == b[i].id && a[i].running == b[i].running && a[i].band == b[i].band
  }

  lemma FedAllOk(clients: seq<Client>, block: W.Block)
    requires forall i :: 0 <= i < |clients| ==> ClientOk(clients[i])
    ensures forall i :: 0 <= i < |clients| ==> ClientOk(FedAll(clients, block)[i])
    ensures SameClients(clients, FedAll(clients, block))
  {
    forall i | 0 <= i < |clients|
      ensures ClientOk(FedAll(clients, block)[i])
      ensures clients[i].running == FedAll(clients, block)[i].running
      ensures clients[i].band == FedAll(clients, block)[i].band && clients[i].id == FedAll(clients, block)[i].id
    {
      FedOk(clients[i], block);
    }
  }

  /** Replacing one linked client by one in order. */
  lemma ClientReplaced(s: Server, i: nat, c: Client)
    requires WorkersOk(s) && i < |s.clients| && ClientOk(c)
    ensures WorkersOk(s.(clients := s.clients[i := c])) && WorkersOk(AfterExit(s.(clients := s.clients[i := c])))
  {
  }

  lemma UnlinkedReplaced(s: Server, c: Client)
    requires WorkersOk(s) && HasClient(s.acceptor) && ClientOk(c)
    ensures var s' := s.(acceptor := WithClient(s.acceptor, c));
            WorkersOk(s') && WorkersOk(AfterExit(s'))
  {
  }

  lemma KeptOk(clients: seq<Client>)
    requires forall i :: 0 <= i < |clients| ==> ClientOk(clients[i])
    ensures forall i :: 0 <= i < |Running(clients)| ==> ClientOk(Running(clients)[i])
  {
    RunningFacts(clients);
    forall i | 0 <= i < |Running(clients)|
      ensures ClientOk(Running(clients)[i])
    {
      var j :| 0 <= j < |clients| && clients[j] == Running(clients)[i];
    }
  }

  lemma RegisteredOk(s: Server, deviceStarts: bool)
    requires WorkersOk(s) && s.acceptor.Starting?
    ensures WorkersOk(RegisterClient(s, s.acceptor.client, deviceStarts))
  {
    KeptOk(s.clients);
    var c, s' := s.acceptor.client, RegisterClient(s, s.acceptor.client, deviceStarts);
    assert s'.clients == Running(s.clients) || s'.clients == Running(s.clients) + [c] || s'.clients == [c];
    assert HasClient(s'.acceptor) ==> s'.acceptor.client == c;
  }

  lemma WorkedInPlace(s: Server, i: nat, step: W.Event)
    requires WorkersOk(s) && i < |s.clients| && OwnStep(step)
    ensures var c := s.clients[i];
            WorkersOk(s.(clients := s.clients[i := c.(worker := W.Step(c.worker, step))]))
  {
    WorkedOk(s.clients[i], step);
    ClientReplaced(s, i, s.clients[i].(worker := W.Step(s.clients[i].worker, step)));
  }

  lemma WorkedUnlinked(s: Server, step: W.Event)
    requires WorkersOk(s) && HasClient(s.acceptor) && OwnStep(step)
    ensures var c := s.acceptor.client;
            WorkersOk(s.(acceptor := WithClient(s.acceptor, c.(worker := W.Step(c.worker, step)))))
  {
    WorkedOk(s.acceptor.client, step);
    UnlinkedReplaced(s, s.acceptor.client.(worker := W.Step(s.acceptor.client.worker, step)));
  }

  lemma WorkersStep(s: Server, e: Event)
    requires WorkersOk(s) && Enabled(s, e)
    ensures WorkersOk(Step(s, e))
  {
    hide ClientOk, Stopped, Muted, W.Step;
    match e
    case Start(r, setup) => NewClientOk(s.counter, r, setup);
    case Register(deviceStarts) => RegisteredOk(s, deviceStarts);
    case Leave(i) =>
      StoppedOk(s.clients[i]);
      ClientReplaced(s, i, Stopped(s.clients[i]));
    case LeaveUnlinked =>
      StoppedOk(s.acceptor.client);
      UnlinkedReplaced(s, Stopped(s.acceptor.client));
    case Deliver(block) => FedAllOk(s.clients, block);
    case Work(i, step) => WorkedInPlace(s, i, step);
    case WorkUnlinked(step) => WorkedUnlinked(s, step);
    case HangUp =>
      MutedOk(s.clients[0]);
      ClientReplaced(s, 0, Muted(s.clients[0]));
    case _ =>
  }

  // ---- Steps that leave lifecycle and band alone ----

  lemma SameClientsRun(a: seq<Client>, b: seq<Client>)
    requires SameClients(a, b)
    ensures AnyRunning(a) == AnyRunning(b)
  {
    if i :| 0 <= i < |a| && a[i].running {
      assert b[i].running;
    }
    if i :| 0 <= i < |b| && b[i].running {
      assert a[i].running;
    }
  }

  ghost predicate Control(s: Server) {
    Lifecycle(s) && OneBand(s)
  }

  lemma WorkKeepsControl(s: Server, clients: seq<Client>)
    requires Control(s) && SameClients(s.clients, clients)
    ensures Control(s.(clients := clients))
  {
    SameClientsRun(s.clients, clients);
  }

  /** A linked client leaves. */
  lemma LeaveKeepsControl(s: Server, i: nat, c: Client)
    requires Control(s) && i < |s.clients| && s.clients[i].running
    requires !c.running && c.band == s.clients[i].band
    ensures Control(AfterExit(s.(clients := s.clients[i := c])))
  {
    assert AnyRunning(s.clients);
  }

  /** A client that is not linked leaves: the exact condition. */
  lemma LeaveUnlinkedControl(s: Server, c: Client)
    requires Control(s) && HasClient(s.acceptor) && s.acceptor.client.running
    requires !c.running && c.band == s.acceptor.client.band
    ensures Control(AfterExit(s.(acceptor := WithClient(s.acceptor, c))))
            <==> AnyRunning(s.clients) || s.thread != NoThread
  {
    var s' := s.(acceptor := WithClient(s.acceptor, c));
    assert s'.clients == s.clients;
    if !AnyRunning(s.clients) && s.thread == NoThread {
      assert s.sdrStopped && AfterExit(s').sdrStopped && AfterExit(s').thread == Stopping;
    } else {
      assert AfterExit(s') == s';
      assert s'.acceptor.Waiting? == s.acceptor.Waiting? && HasClient(s'.acceptor) && s'.acceptor.client == c;
      assert OneBand(s') && Lifecycle(s');
    }
  }

  /** Registration: the exact condition. */
  lemma RegisterControl(s: Server, deviceStarts: bool)
    requires Control(s) && s.acceptor.Starting?
    ensures Control(RegisterClient(s, s.acceptor.client, deviceStarts))
            <==> (Running(s.clients) == [] && s.sdrStopped && deviceStarts ==> s.acceptor.client.running)
  {
    RunningFacts(s.clients);
    var c := s.acceptor.client;
    if Running(s.clients) == [] {
      if s.sdrStopped {
        StartDeviceControl(s.(clients := [], currentBandFreq := c.band), c, deviceStarts);
      } else {
        assert !AnyRunning([]);
      }
    } else {
      KeptControl(s, c);
    }
  }

  /** Starting the device for its first client: the exact condition. */
  lemma StartDeviceControl(s: Server, c: Client, deviceStarts: bool)
    requires s.clients == [] && s.sdrStopped && s.device == Off && c.band == s.currentBandFreq != 0
    requires JoinReturns(s.thread)
    ensures Control(StartDevice(s, c, deviceStarts)) <==> (deviceStarts ==> c.running)
  {
    var s' := StartDevice(s, c, deviceStarts);
    if deviceStarts {
      assert AnyRunning(s'.clients) <==> s'.clients[0].running;
    } else {
      assert !AnyRunning(s'.clients);
    }
  }

  /** Registration while other clients run: the newcomer is linked or turned away. */
  lemma KeptControl(s: Server, c: Client)
    requires Control(s) && s.acceptor == Starting(c) && Running(s.clients) != []
    ensures var s' := s.(clients := Running(s.clients));
            && Control(s'.(acceptor := TurningAway(c)))
            && (c.band == s.currentBandFreq ==> Control(s'.(clients := s'.clients + [c], acceptor := Accepting)))
            && s.currentBandFreq != 0
  {
    RunningFacts(s.clients);
    var kept := Running(s.clients);
    assert kept[0] in s.clients;
    assert AnyRunning(kept) && (kept + [c])[0] == kept[0];
    assert AnyRunning(kept + [c]);
  }

  // ---- Main results ----

  /** From a state in order, a step leads to a state in order exactly when it is safe. */
  lemma ControlStep(s: Server, e: Event)
    requires WorkersOk(s) && Control(s) && Enabled(s, e)
    ensures Control(Step(s, e)) <==> Safe(s, e)
  {
    hide W.Step, W.Disconnected, W.Initial, W.Invariant, OfBand;
    match e
    case Register(deviceStarts) => RegisterControl(s, deviceStarts);
    case Resume(deviceStarts) => StartDeviceControl(s, s.acceptor.client, deviceStarts);
    case Leave(i) =>
      StoppedOk(s.clients[i]);
      LeaveKeepsControl(s, i, Stopped(s.clients[i]));
    case LeaveUnlinked =>
      StoppedOk(s.acceptor.client);
      LeaveUnlinkedControl(s, Stopped(s.acceptor.client));
    case Deliver(block) =>
      FedAllOk(s.clients, block);
      WorkKeepsControl(s, FedAll(s.clients, block));
    case Work(i, step) =>
      WorkKeepsControl(s, s.clients[i := s.clients[i].(worker := W.Step(s.clients[i].worker, step))]);
    case HangUp => WorkKeepsControl(s, s.clients[0 := Muted(s.clients[0])]);
    case DrainHead => DrainHeadControl(s);
    case StopDevice => ShutdownThreadStep(s);
    case Release => ShutdownThreadStep(s);
    case WorkUnlinked(step) => NewcomerWorks(s, step);
    case Start(r, setup) => AcceptorMoves(s, s.counter + 1, Starting(NewClient(s.counter, r, setup)));
    case Refuse => AcceptorMoves(s, s.counter + 1, Accepting);
    case Dismiss => AcceptorMoves(s, s.counter, Accepting);
    case Shutdown => AcceptorMoves(s, s.counter, Draining);
    case DrainEnd => DrainEndControl(s);
  }

  /** The acceptor moves on; it does not begin or end a wait. */
  lemma AcceptorMoves(s: Server, n: nat, a: Acceptor)
    requires Control(s) && (a.Waiting? <==> s.acceptor.Waiting?)
    requires HasClient(a) ==> a.client.band != 0
    requires a.Waiting? ==> a.client.band == s.acceptor.client.band
    requires a != Done && !a.Joining? && a != JoiningAtEnd
    ensures Control(s.(counter := n, acceptor := a))
  {
    var s' := s.(counter := n, acceptor := a);
    assert s'.clients == s.clients && s'.acceptor == a && AnyRunning(s'.clients) == AnyRunning(s.clients);
    assert Lifecycle(s');
    assert s.acceptor.Waiting? ==> s'.clients == [] && a.client.band == s'.currentBandFreq;
    assert OneBand(s');
  }

  lemma NewcomerWorks(s: Server, step: W.Event)
    requires WorkersOk(s) && Control(s) && HasClient(s.acceptor) && OwnStep(step)
    ensures Control(Step(s, WorkUnlinked(step)))
  {
    var c := s.acceptor.client;
    AcceptorMoves(s, s.counter, WithClient(s.acceptor, c.(worker := W.Step(c.worker, step))));
  }

  /** A step of the shutdown thread. */
  lemma ShutdownThreadStep(s: Server)
    requires Control(s)
    ensures s.thread == Stopping ==> Control(s.(thread := Releasing, device := Off))
    ensures s.thread == Releasing ==> Control(s.(thread := Finished, sdrStopped := true))
  {
    assert s.thread != NoThread && !s.sdrStopped ==> !AnyRunning(s.clients);
  }

  lemma DrainEndControl(s: Server)
    requires Control(s) && s.acceptor == Draining && s.clients == [] && s.sdrStopped
    ensures Control(s.(thread := NoThread, acceptor := Done))
  {
    assert !AnyRunning(s.clients);
  }

  lemma DrainHeadControl(s: Server)
    requires Control(s) && s.acceptor == Draining && s.clients != [] && !s.clients[0].running
    ensures Control(s.(clients := s.clients[1..]))
  {
    HeadUnlinked(s.clients);
  }

  lemma HeadUnlinked(clients: seq<Client>)
    requires clients != [] && !clients[0].running
    ensures AnyRunning(clients[1..]) == AnyRunning(clients)
  {
    if i :| 0 <= i < |clients| && clients[i].running {
      assert clients[1..][i - 1].running;
    }
    if i :| 0 <= i < |clients[1..]| && clients[1..][i].running {
      assert clients[i + 1].running;
    }
  }

  /** The invariant is kept by a step exactly when the step is safe. */
  lemma InvariantKeptIffSafe(s: Server, e: Event)
    requires Invariant(s) && Enabled(s, e)
    ensures Invariant(Step(s, e)) <==> Safe(s, e)
  {
    WorkersStep(s, e);
    ControlStep(s, e);
  }

  /** What the program relies on: devices start, and clients leave only after they were linked or turned away. */
  ghost predicate Assumed(s: Server, e: Event) {
    match e
    case Register(deviceStarts) => deviceStarts
    case Resume(deviceStarts) => deviceStarts
    case LeaveUnlinked => s.acceptor.TurningAway?
    case _ => true
  }

  /**
   The client the acceptor is about to link is still running, and one that it turns away can leave
   without creating a shutdown thread for a stopped device.
   */
  ghost predicate NewcomerReady(s: Server) {
    && (s.acceptor.Starting? || s.acceptor.Waiting? ==> s.acceptor.client.running)
    && (s.acceptor.TurningAway? && s.acceptor.client.running ==> !s.sdrStopped || s.thread != NoThread)
  }

  lemma AssumedIsSafe(s: Server, e: Event)
    requires Invariant(s) && NewcomerReady(s) && Enabled(s, e) && Assumed(s, e)
    ensures Safe(s, e) && NewcomerReady(Step(s, e))
  {
    hide ClientOk, W.Step, W.Disconnected;
    match e
    case Register(_) => RunningFacts(s.clients);
    case Leave(i) => assert Step(s, e).acceptor == s.acceptor;
    case Deliver(block) => assert Step(s, e).acceptor == s.acceptor;
    case Work(i, step) => assert Step(s, e).acceptor == s.acceptor;
    case HangUp => assert Step(s, e).acceptor == s.acceptor;
    case _ =>
  }

  /** One event of a run; an event that cannot happen now does not happen. */
  ghost function Next(s: Server, e: Event): (t: Server)
    requires WorkersOk(s)
    ensures WorkersOk(t)
  {
    if Enabled(s, e) then
      WorkersStep(s, e);
      Step(s, e)
    else s
  }

  ghost function Run(s: Server, events: seq<Event>): (t: Server)
    requires WorkersOk(s)
    ensures WorkersOk(t)
    decreases |events|
  {
    if events == [] then s else Run(Next(s, events[0]), events[1..])
  }

  /** The assumptions hold at every step of the run. */
  ghost predicate Behaves(s: Server, events: seq<Event>)
    requires WorkersOk(s)
    decreases |events|
  {
    events == [] || ((Enabled(s, events[0]) ==> Assumed(s, events[0])) && Behaves(Next(s, events[0]), events[1..]))
  }

  lemma {:induction false} RunKeepsInvariant(s: Server, events: seq<Event>)
    requires Invariant(s) && NewcomerReady(s) && Behaves(s, events)
    ensures Invariant(Run(s, events)) && NewcomerReady(Run(s, events))
    decreases |events|
  {
    if events == [] {
    } else {
      if Enabled(s, events[0]) {
        AssumedIsSafe(s, events[0]);
        InvariantKeptIffSafe(s, events[0]);
      }
      RunKeepsInvariant(Next(s, events[0]), events[1..]);
    }
  }

  lemma InitialInvariant(admits: Gate)
    ensures Invariant(Initial(admits)) && NewcomerReady(Initial(admits))
  {
    assert !AnyRunning(Initial(admits).clients);
  }

  /**
   Safety over whole runs: under the assumptions every reachable state is in order, and the acceptor
   never joins a shutdown thread that still needs the mutex it holds, nor could it do so next.
   */
  lemma EveryReachableStateInOrder(admits: Gate, events: seq<Event>)
    requires WorkersOk(Initial(admits)) && Behaves(Initial(admits), events)
    ensures var t := Run(Initial(admits), events);
            Invariant(t) && !LockedUp(t) && !JoinLocksUp(t)
  {
    InitialInvariant(admits);
    RunKeepsInvariant(Initial(admits), events);
  }

  // ---- The acceptor's wait ends ----

  /** Only the acceptor links clients, so there are none while it waits. */
  ghost predicate WaitsAlone(s: Server) {
    s.acceptor.Waiting? ==> s.clients == []
  }

  lemma StillWaitsAlone(s: Server, e: Event)
    requires WorkersOk(s) && Enabled(s, e) && WaitsAlone(s)
    ensures WaitsAlone(Step(s, e))
  {
    hide ClientOk, Fed, Stopped, Muted, W.Step, W.Initial;
  }

  /** Steps left to the shutdown thread before it releases the acceptor. */
  function StepsLeft(t: ShutdownThread): nat {
    match t
    case Stopping => 2
    case Releasing => 1
    case _ => 0
  }

  /** The acceptor waits for the device to have stopped, for a newcomer or at the very end. */
  ghost predicate WaitsForDevice(s: Server) {
    !s.sdrStopped && (s.acceptor.Waiting? || (s.acceptor == Draining && s.clients == []))
  }

  /** Whenever the acceptor waits, a shutdown thread is under way and its next step can be made. */
  lemma WaitHasReleaser(s: Server)
    requires Invariant(s) && WaitsForDevice(s)
    ensures StepsLeft(s.thread) > 0
    ensures Enabled(s, if s.thread == Stopping then StopDevice else Release)
  {
    assert !AnyRunning(s.clients);
  }

  /** Every step of the shutdown thread brings the wait closer to its end; no other step prolongs it. */
  lemma WaitProgresses(s: Server, e: Event)
    requires Invariant(s) && WaitsForDevice(s) && Enabled(s, e) && Safe(s, e)
    ensures StepsLeft(Step(s, e).thread) <= StepsLeft(s.thread)
    ensures e == StopDevice || e == Release ==> StepsLeft(Step(s, e).thread) < StepsLeft(s.thread)
    ensures StepsLeft(Step(s, e).thread) == 0 <==> Step(s, e).sdrStopped
    ensures WaitsForDevice(Step(s, e)) || Step(s, e).sdrStopped
  {
    WaitHasReleaser(s);
    InvariantKeptIffSafe(s, e);
    assert !AnyRunning(s.clients);
  }

  /** After the wait the newcomer is linked, the device on and tuned to the band it asked for. */
  lemma WaitEndsWithDeviceOn(s: Server)
    requires Invariant(s) && NewcomerReady(s) && s.acceptor.Waiting? && s.sdrStopped
    ensures Enabled(s, Resume(true)) && !JoinLocksUp(s)
    ensures var t := Step(s, Resume(true));
            && Invariant(t) && t.clients == [s.acceptor.client] && t.clients[0].running
            && t.device == On(s.acceptor.client.band) && t.thread == NoThread && !t.sdrStopped
  {
    InvariantKeptIffSafe(s, Resume(true));
  }

  // ---- One band for all ----

  ghost predicate Tuned(s: Server) {
    s.device.On? ==> s.device.freq == s.currentBandFreq
  }

  /**
   A device that is on stays tuned to the recorded band, except by one step: a newcomer for another
   band registers when no client is kept and the device is still on.
   */
  lemma DeviceTuned(s: Server, e: Event)
    requires Invariant(s) && Enabled(s, e) && Safe(s, e) && Tuned(s)
    ensures Tuned(Step(s, e))
            <==> !(&& e.Register? && Running(s.clients) == [] && s.device.On?
                   && s.acceptor.client.band != s.currentBandFreq)
  {
    hide ClientOk, Fed, Stopped, Muted, W.Step, W.Initial;
    InvariantKeptIffSafe(s, e);
    if e.Register? {
      RunningFacts(s.clients);
    }
  }

  /** In every run under the assumptions: while a linked client runs the device is on, on the band of all of them. */
  lemma RunningClientsTuned(admits: Gate, events: seq<Event>)
    requires WorkersOk(Initial(admits)) && Behaves(Initial(admits), events)
    ensures var t := Run(Initial(admits), events);
            AnyRunning(t.clients) ==>
              t.device == On(t.currentBandFreq) && OfBand(t.clients, t.currentBandFreq)
  {
    EveryReachableStateInOrder(admits, events);
  }

  /**
   What a registration does to the whole server, case by case: with a client running the newcomer is
   linked or turned away, and nothing else changes; with none and the device not stopped the acceptor
   waits; otherwise it joins the shutdown thread, and starts the device if that returns.
   */
  lemma RegistrationOutcomes(s: Server, deviceStarts: bool)
    requires WorkersOk(s) && Enabled(s, Register(deviceStarts))
    ensures var c, t, kept := s.acceptor.client, Step(s, Register(deviceStarts)), Running(s.clients);
            && (AnyRunning(s.clients) ==>
                  if s.currentBandFreq == 0 || s.currentBandFreq == c.band
                  then t == s.(clients := kept + [c], acceptor := Accepting)
                  else t == s.(clients := kept, acceptor := TurningAway(c)))
            && (!AnyRunning(s.clients) ==> t.currentBandFreq == c.band)
            && (!AnyRunning(s.clients) && !s.sdrStopped ==>
                  t == s.(clients := [], currentBandFreq := c.band, acceptor := Waiting(c)))
            && (!AnyRunning(s.clients) && s.sdrStopped && !(s.thread == NoThread || s.thread == Finished) ==>
                  t == s.(clients := [], currentBandFreq := c.band, acceptor := Joining(c)))
            && (!AnyRunning(s.clients) && s.sdrStopped && (s.thread == NoThread || s.thread == Finished) ==>
                  if deviceStarts
                  then t == s.(clients := [c], currentBandFreq := c.band, acceptor := Accepting,
                               thread := NoThread, device := On(c.band), sdrStopped := false)
                  else t == s.(clients := [], currentBandFreq := c.band, acceptor := TurningAway(c),
                               thread := NoThread))
  {
    hide ClientOk;
    RunningFacts(s.clients);
  }

  /**
   Every connection takes a number, also one that is not served; a client has the number of its
   connection, the band it asked for and a worker that has not begun.
   */
  lemma ConnectionOutcomes(s: Server, e: Event)
    requires WorkersOk(s) && Enabled(s, e)
    ensures Step(s, e).counter == s.counter + if e.Start? || e.Refuse? then 1 else 0
    ensures e.Refuse? ==> Step(s, e) == s.(counter := s.counter + 1)
    ensures e.Start? ==>
              var c := Client(s.counter, e.request.bandFreq as nat, true, W.Initial(e.setup));
              Step(s, e) == s.(counter := s.counter + 1, acceptor := Starting(c))
  {
    hide ClientOk, W.Step, W.Disconnected, W.Initial, AnyRunning;
  }

  lemma OneStops(clients: seq<Client>, i: nat, c: Client)
    requires i < |clients| && !c.running
    ensures AnyRunning(clients[i := c]) <==> exists j :: 0 <= j < |clients| && j != i && clients[j].running
  {
    var left := clients[i := c];
    if AnyRunning(left) {
      var j :| 0 <= j < |left| && left[j].running;
      assert j != i && clients[j].running;
    }
    if j :| 0 <= j < |clients| && j != i && clients[j].running {
      assert left[j].running;
    }
  }

  /** What a linked client's leaving does: it stops, no other changes, and the device goes off with the last. */
  lemma LeavingOutcome(s: Server, i: nat)
    requires WorkersOk(s) && Enabled(s, Leave(i)) && ClientOk(s.clients[i])
    ensures var t, c := Step(s, Leave(i)), Stopped(s.clients[i]);
            && !c.running && c.id == s.clients[i].id && c.band == s.clients[i].band
            && t == s.(clients := s.clients[i := c], thread := t.thread)
            && t.thread == if (exists j :: 0 <= j < |s.clients| && j != i && s.clients[j].running)
                              || s.thread != NoThread then s.thread else Stopping
  {
    hide ClientOk, W.Disconnected, AnyRunning;
    OneStops(s.clients, i, Stopped(s.clients[i]));
  }

  /** A client for another band is turned away while others run, and changes nothing for them. */
  lemma OtherBandTurnedAway(s: Server, deviceStarts: bool)
    requires Invariant(s) && s.acceptor.Starting? && AnyRunning(s.clients)
    ensures var c, t := s.acceptor.client, Step(s, Register(deviceStarts));
            && (c.band != s.currentBandFreq <==> t.acceptor == TurningAway(c))
            && (c.band == s.currentBandFreq <==> t.clients == Running(s.clients) + [c])
            && (c.band != s.currentBandFreq ==> t.clients == Running(s.clients))
            && t.currentBandFreq == s.currentBandFreq && t.device == s.device
  {
    RunningFacts(s.clients);
    assert Running(s.clients)[0] in s.clients;
  }

  // ---- What each client receives ----

  /** A block from the device is put into the queue of exactly the running clients. */
  lemma DeliveredToRunning(s: Server, block: W.Block, i: nat)
    requires Invariant(s) && Enabled(s, Deliver(block)) && i < |s.clients|
    ensures i < |Step(s, Deliver(block)).clients|
    ensures var c, c' := s.clients[i], Step(s, Deliver(block)).clients[i];
            c'.worker.trace.puts == if c.running then c.worker.trace.puts + [block] else c.worker.trace.puts
  {
    if s.clients[i].running {
      W.PutsAfterStep(s.clients[i].worker, W.Put(block));
    }
  }

  /** A linked client or the one the acceptor holds. */
  ghost predicate Present(s: Server, c: Client) {
    c in s.clients || (HasClient(s.acceptor) && c == s.acceptor.client)
  }

  lemma RegisteredPresent(s: Server, c: Client, deviceStarts: bool, c': Client)
    requires s.acceptor == Starting(c) && c' in RegisterClient(s, c, deviceStarts).clients
    ensures Present(s, c')
  {
    RunningFacts(s.clients);
  }

  lemma InUpdated<T>(s: seq<T>, i: nat, x: T, y: T)
    requires i < |s| && y in s[i := x]
    ensures y == x || y in s
  {
  }

  /** The same client, fed the same blocks. */
  ghost predicate SameFeed(c: Client, c': Client) {
    && c'.id == c.id && c'.band == c.band && c'.worker.setup == c.worker.setup
    && c'.worker.trace.puts == c.worker.trace.puts
  }

  lemma StillPresent(s: Server, e: Event, c': Client)
    requires WorkersOk(s) && Enabled(s, e) && c' in Step(s, e).clients
    requires !e.Register? && !e.Resume? && !e.Leave? && !e.Deliver? && !e.Work? && !e.HangUp? && !e.DrainHead?
    ensures Present(s, c') && SameFeed(c', c')
  {
    hide ClientOk, Stopped, Muted, W.Step;
  }

  /** No other step feeds a client, whether it is linked, being linked or leaving. */
  lemma NothingElseFeeds(s: Server, e: Event, c': Client)
    requires Invariant(s) && Enabled(s, e) && !e.Deliver? && c' in Step(s, e).clients
    ensures exists c :: Present(s, c) && SameFeed(c, c')
  {
    hide ClientOk, Stopped, W.Step;
    match e
    case Register(deviceStarts) => RegisteredPresent(s, s.acceptor.client, deviceStarts, c');
    case Leave(i) => LeftFeedsNobody(s, i, c');
    case Work(i, step) => WorkFeedsNobody(s, i, step, c');
    case HangUp => WorkFeedsNobody(s, 0, W.Close, c');
    case Deliver(_) => assert false;
    case Resume(_) => assert Present(s, c');
    case DrainHead => assert c' in s.clients && Present(s, c');
    case _ => StillPresent(s, e, c');
  }

  lemma LeftFeedsNobody(s: Server, i: nat, c': Client)
    requires WorkersOk(s) && i < |s.clients| && s.clients[i].running && c' in ClientLeaves(s, i).clients
    ensures exists c :: Present(s, c) && SameFeed(c, c')
  {
    StoppedOk(s.clients[i]);
    InUpdated(s.clients, i, Stopped(s.clients[i]), c');
    assert Present(s, s.clients[i]);
    assert c' in s.clients ==> Present(s, c');
  }

  lemma WorkFeedsNobody(s: Server, i: nat, step: W.Event, c': Client)
    requires WorkersOk(s) && i < |s.clients| && !step.Put?
    requires c' in s.clients[i := s.clients[i].(worker := W.Step(s.clients[i].worker, step))]
    ensures exists c :: Present(s, c) && SameFeed(c, c')
  {
    var c := s.clients[i];
    W.PutsAfterStep(c.worker, step);
    InUpdated(s.clients, i, c.(worker := W.Step(c.worker, step)), c');
    assert Present(s, c);
    assert c' in s.clients ==> Present(s, c');
  }

  // ---- Where the assumptions matter ----

  /** Steps that are no section under the server mutex. */
  predicate NeedsNoMutex(e: Event) {
    e.StopDevice? || e.Work? || e.WorkUnlinked?
  }

  /** The acceptor locks up exactly by the join that `JoinLocksUp` sees coming, and then it can do so. */
  lemma LocksUpExactly(s: Server, e: Event)
    requires WorkersOk(s) && !LockedUp(s) && Enabled(s, e)
    ensures LockedUp(Step(s, e)) <==> JoinLocksUp(s) && (e.Register? || e.Resume? || e.DrainEnd?)
    ensures LockedUp(Step(s, e)) ==> !JoinReturns(Step(s, e).thread)
  {
    hide ClientOk, Fed, Stopped, Muted, W.Step, W.Initial;
  }

  lemma LockUpPossible(s: Server)
    requires WorkersOk(s) && !LockedUp(s)
    ensures JoinLocksUp(s) <==> exists e :: Enabled(s, e) && LockedUp(Step(s, e))
  {
    if JoinLocksUp(s) {
      var e := if s.acceptor.Starting? then Register(true) else if s.acceptor.Waiting? then Resume(true) else DrainEnd;
      assert Enabled(s, e);
      LocksUpExactly(s, e);
    }
    forall e | Enabled(s, e) && LockedUp(Step(s, e))
      ensures JoinLocksUp(s)
    {
      LocksUpExactly(s, e);
    }
  }

  /** The acceptor and the shutdown thread wait for each other. */
  predicate Deadlocked(s: Server) {
    LockedUp(s) && !JoinReturns(s.thread)
  }

  /** The server is still deadlocked; nobody was linked, has left or was fed. */
  ghost predicate StillDeadlocked(s: Server, t: Server) {
    && Deadlocked(t) && t.counter == s.counter && SameClients(s.clients, t.clients)
    && (forall i :: 0 <= i < |s.clients| ==> SameFeed(s.clients[i], t.clients[i]))
    && (forall e :: Enabled(t, e) ==> NeedsNoMutex(e))
  }

  lemma DeadlockLets(s: Server, e: Event)
    requires Deadlocked(s) && Enabled(s, e)
    ensures NeedsNoMutex(e)
  {
  }

  lemma DeadlockStep(s: Server, e: Event)
    requires WorkersOk(s) && Deadlocked(s) && Enabled(s, e)
    ensures StillDeadlocked(s, Step(s, e))
  {
    hide ClientOk, W.Step;
    DeadlockLets(s, e);
    var t := Step(s, e);
    forall d | Enabled(t, d)
      ensures NeedsNoMutex(d)
    {
      DeadlockLets(t, d);
    }
    match e
    case Work(i, step) => WorkedSame(s.clients, i, step);
    case WorkUnlinked(_) => assert t.clients == s.clients;
    case StopDevice => assert t.clients == s.clients;
  }

  lemma WorkedSame(clients: seq<Client>, i: nat, step: W.Event)
    requires i < |clients| && ClientOk(clients[i]) && OwnStep(step)
    ensures var t := clients[i := clients[i].(worker := W.Step(clients[i].worker, step))];
            SameClients(clients, t) && forall j :: 0 <= j < |clients| ==> SameFeed(clients[j], t[j])
  {
    W.PutsAfterStep(clients[i].worker, step);
  }

  /** A deadlock is for good: whatever happens, no section under the mutex is ever entered again. */
  lemma {:induction false} DeadlockedForever(s: Server, events: seq<Event>)
    requires WorkersOk(s) && Deadlocked(s)
    ensures StillDeadlocked(s, Run(s, events))
    decreases |events|
  {
    hide ClientOk, W.Step, Enabled, Step;
    if events == [] {
      forall e | Enabled(s, e)
        ensures NeedsNoMutex(e)
      {
        DeadlockLets(s, e);
      }
    } else {
      if Enabled(s, events[0]) {
        DeadlockStep(s, events[0]);
      }
      DeadlockedForever(Next(s, events[0]), events[1..]);
    }
  }

  /**
   The acceptor and the shutdown thread race for the mutex. If the acceptor is first, the server is
   deadlocked for good; if the shutdown thread is, the newcomer is registered.
   */
  ghost predicate Race(s: Server)
    requires WorkersOk(s)
  {
    && JoinLocksUp(s) && s.acceptor.Starting? && s.thread == Stopping
    && Enabled(s, Register(true)) && WorkersOk(Step(s, Register(true)))
    && (forall events :: StillDeadlocked(Step(s, Register(true)), Run(Step(s, Register(true)), events)))
    && Enabled(s, StopDevice) && WorkersOk(Step(s, StopDevice))
    && Enabled(Step(s, StopDevice), Release)
    && var t := Step(Step(s, StopDevice), Release);
    && WorkersOk(t) && Enabled(t, Register(true))
    && Step(t, Register(true)).clients == [s.acceptor.client]
    && Step(t, Register(true)).device == On(s.acceptor.client.band)
  }

  lemma RaceIsOpen(s: Server)
    requires WorkersOk(s) && s.acceptor.Starting? && Running(s.clients) == [] && s.sdrStopped && s.thread == Stopping
    ensures Race(s)
  {
    hide ClientOk;
    WorkersStep(s, Register(true));
    var t := Step(s, Register(true));
    LocksUpExactly(s, Register(true));
    forall events
      ensures StillDeadlocked(t, Run(t, events))
    {
      DeadlockedForever(t, events);
    }
    WorkersStep(s, StopDevice);
    WorkersStep(Step(s, StopDevice), Release);
  }

  lemma LeftAlone(s: Server)
    requires WorkersOk(s) && Enabled(s, LeaveUnlinked) && s.acceptor.Starting? && ClientOk(s.acceptor.client)
    requires s.clients == [] && s.thread == NoThread
    ensures Step(s, LeaveUnlinked) == s.(acceptor := Starting(Stopped(s.acceptor.client)), thread := Stopping)
  {
    hide ClientOk, W.Disconnected, W.Invariant;
    assert !AnyRunning(s.clients);
  }

  /**
   The client that the acceptor is about to link leaves: the acceptor can deadlock with the shutdown
   thread, and if it does not, the device ends up running with no client and nobody to stop it.
   */
  ghost predicate LeavingStrands(s: Server)
    requires WorkersOk(s)
  {
    && Enabled(s, LeaveUnlinked)
    && var t := Step(s, LeaveUnlinked);
    && WorkersOk(t) && Race(t)
    && Stranded(Step(Step(Step(t, StopDevice), Release), Register(true)))
  }

  /** The device is on, and no client and no shutdown thread will ever turn it off. */
  ghost predicate Stranded(s: Server) {
    s.device.On? && !s.sdrStopped && s.thread == NoThread && !AnyRunning(s.clients)
  }

  lemma RaceStrands(s: Server)
    requires WorkersOk(s) && Race(s) && !s.acceptor.client.running
    ensures Stranded(Step(Step(Step(s, StopDevice), Release), Register(true)))
  {
    hide ClientOk, StillDeadlocked;
  }

  lemma LeavingFirstStrands(s: Server)
    requires WorkersOk(s) && s.acceptor.Starting? && s.acceptor.client.running
    requires s.clients == [] && s.thread == NoThread && s.sdrStopped
    ensures LeavingStrands(s)
  {
    WorkersStep(s, LeaveUnlinked);
    LeftAlone(s);
    hide ClientOk, Race, Stranded;
    RaceIsOpen(Step(s, LeaveUnlinked));
    RaceStrands(Step(s, LeaveUnlinked));
  }

  /** In particular the first client of a server. */
  lemma EarlyLeaveStrandsDevice(s: Server, r: Admission.Request, setup: W.Setup)
    requires s == Initial(s.admits) && Enabled(s, Start(r, setup)) && WorkersOk(s)
    ensures WorkersOk(Step(s, Start(r, setup))) && LeavingStrands(Step(s, Start(r, setup)))
  {
    WorkersStep(s, Start(r, setup));
    hide ClientOk, LeavingStrands;
    LeavingFirstStrands(Step(s, Start(r, setup)));
  }

  /** The client turned away leaves and its thread is joined; with the next client the race is open. */
  ghost predicate NextClientRaces(s: Server, r: Admission.Request, setup: W.Setup)
    requires WorkersOk(s)
  {
    && Enabled(s, LeaveUnlinked)
    && var s1 := Step(s, LeaveUnlinked);
    && s1.thread == Stopping && s1.device == Off
    && WorkersOk(s1) && Enabled(s1, Dismiss)
    && var s2 := Step(s1, Dismiss);
    && WorkersOk(s2) && Enabled(s2, Start(r, setup))
    && WorkersOk(Step(s2, Start(r, setup))) && Race(Step(s2, Start(r, setup)))
  }

  lemma TurnedAwayRaces(s: Server, r: Admission.Request, setup: W.Setup)
    requires WorkersOk(s) && s.acceptor.TurningAway? && s.acceptor.client.running
    requires s.clients == [] && s.sdrStopped && s.thread == NoThread && s.device == Off
    requires s.admits(r, setup) && r.bandFreq != 0 && W.ValidSetup(setup)
    ensures NextClientRaces(s, r, setup)
  {
    assert !AnyRunning(s.clients);
    WorkersStep(s, LeaveUnlinked);
    var s1 := Step(s, LeaveUnlinked);
    WorkersStep(s1, Dismiss);
    var s2 := Step(s1, Dismiss);
    WorkersStep(s2, Start(r, setup));
    RaceIsOpen(Step(s2, Start(r, setup)));
  }

  /**
   A device that does not start, for the first client or after a wait: turning the client away creates
   a shutdown thread for a stopped device, and registering the next client can deadlock with it.
   */
  lemma FailedStartCanLockUp(s: Server, e: Event, r: Admission.Request, setup: W.Setup)
    requires Invariant(s) && NewcomerReady(s) && Enabled(s, e)
    requires e == Resume(false) || (e == Register(false) && Running(s.clients) == [] && s.sdrStopped)
    requires s.admits(r, setup) && r.bandFreq != 0 && W.ValidSetup(setup)
    ensures Invariant(Step(s, e)) && !NewcomerReady(Step(s, e))
    ensures NextClientRaces(Step(s, e), r, setup)
  {
    InvariantKeptIffSafe(s, e);
    TurnedAwayRaces(Step(s, e), r, setup);
  }

  /** In particular for the very first client of a server. */
  lemma FirstStartFails(s: Server, r: Admission.Request, setup: W.Setup)
    requires s == Initial(s.admits) && WorkersOk(s) && Enabled(s, Start(r, setup))
    ensures var s1 := Step(s, Start(r, setup));
            && WorkersOk(s1) && Enabled(s1, Register(false))
            && WorkersOk(Step(s1, Register(false)))
            && NextClientRaces(Step(s1, Register(false)), r, setup)
  {
    InitialInvariant(s.admits);
    InvariantKeptIffSafe(s, Start(r, setup));
    var s1 := Step(s, Start(r, setup));
    assert s1.clients == [] && Running(s1.clients) == [];
    FailedStartCanLockUp(s1, Register(false), r, setup);
  }

  /** The window in which the device is still tuned to another band than the one recorded. */
  lemma StaleTuning(s: Server, deviceStarts: bool)
    requires Invariant(s) && s.acceptor.Starting? && s.thread == Stopping
    requires s.acceptor.client.band != s.currentBandFreq
    ensures var t := Step(s, Register(deviceStarts));
            && Invariant(t) && t.device == On(s.currentBandFreq) && t.currentBandFreq == s.acceptor.client.band
            && t.device.freq != t.currentBandFreq && t.acceptor.Waiting?
  {
    RunningFacts(s.clients);
    InvariantKeptIffSafe(s, Register(deviceStarts));
  }
}
