/**
 The server together with the dsp workers of its clients, all on the heap: `node->dsp_worker` is a map
 from client numbers to workers. Whatever happens, server and workers are where the step machine says.
 */
module Service {
  import opened ClientStream
  import opened ServerHistory
  import opened ServerSpec
  import Tcp = TcpServer
  import Admission
  import ClientSetup
  import DspWorker
  import W = WorkerSpec
  import WorkerStart
  import XlatingCf32

  /** The first `k` elements of `a`, the others of `b`. */
  ghost function UpTo<T>(a: seq<T>, b: seq<T>, k: nat): (r: seq<T>)
    requires |a| == |b| && k <= |a|
    ensures |r| == |a| && (k == 0 ==> r == b) && (k == |a| ==> r == a)
  {
    a[..k] + b[k..]
  }

  lemma OneFurther<T>(a: seq<T>, b: seq<T>, k: nat)
    requires |a| == |b| && k < |a|
    ensures UpTo(a, b, k)[k] == b[k] && UpTo(a, b, k + 1) == UpTo(a, b, k)[k := a[k]]
  {
  }

  /** All clients: the linked ones and the one the acceptor holds. */
  ghost function Everyone(s: Server): seq<Client> {
    s.clients + if HasClient(s.acceptor) then [s.acceptor.client] else []
  }

  lemma InEveryone(s: Server, k: Client)
    requires Present(s, k)
    ensures exists i :: 0 <= i < |Everyone(s)| && Everyone(s)[i] == k
  {
    if k in s.clients {
      var i :| 0 <= i < |s.clients| && s.clients[i] == k;
      assert Everyone(s)[i] == k;
    } else {
      assert Everyone(s)[|s.clients|] == k;
    }
  }

  /** Steps in which no client appears that was not there before. */
  lemma NobodyNew(s: Server, e: Event)
    requires WorkersOk(s) && Enabled(s, e)
    requires e.Register? || e.Resume? || e.Dismiss? || e.StopDevice? || e.Release? || e.Shutdown? || e.DrainHead?
             || e.DrainEnd?
    ensures forall i :: 0 <= i < |Everyone(Step(s, e))| ==> Everyone(Step(s, e))[i] in Everyone(s)
  {
    if e.Register? {
      RunningFacts(s.clients);
      RegisterShape(s, s.acceptor.client, e.deviceStarts);
    } else if e.Resume? {
    } else {
      QuietShape(s, e);
    }
  }

  /** A client whose worker has made the next step of its loop. */
  ghost function Moved(c: Client): Client
    requires ClientOk(c)
  {
    c.(worker := W.Step(c.worker, W.OwnStep(c.worker.core.stage)))
  }

  lemma NewcomerStep(s: Server, step: W.Event)
    requires WorkersOk(s) && Enabled(s, WorkUnlinked(step)) && step == W.OwnStep(s.acceptor.client.worker.core.stage)
    ensures Step(s, WorkUnlinked(step)) == s.(acceptor := WithClient(s.acceptor, Moved(s.acceptor.client)))
    ensures Moved(s.acceptor.client) == s.acceptor.client.(worker := Moved(s.acceptor.client).worker)
  {
  }

  lemma StartsReady(setup: W.Setup)
    requires W.ValidSetup(setup)
    ensures W.Initial(setup).core.stage == W.Ready
  {
  }

  lemma PutKeepsStage(w: W.Worker, block: W.Block)
    requires W.Invariant(w)
    ensures W.Step(w, W.Put(block)).core.stage == w.core.stage
  {
  }

  /** A stopped client's worker has left its loop. */
  lemma StoppedEnds(c: Client)
    requires ClientOk(c) && c.running
    ensures Stopped(c).worker.core.stage == W.Ended
  {
    W.DisconnectedHasDelivered(c.worker);
  }

  lemma CloseKeepsStage(w: W.Worker)
    requires W.Invariant(w)
    ensures W.Step(w, W.Close).core.stage == w.core.stage
  {
  }

  class Service {
    const config: ClientSetup.ServerConfig
    const lib: ClientSetup.MathLib
    const build: XlatingCf32.Build
    const server: Tcp.TcpServer

    /** Each client's worker, and where the loop of its thread is. */
    var workers: map<nat, DspWorker.Worker>
    var stages: map<nat, W.Stage>

    /** What has been seen so far, and which worker each object belongs to. */
    ghost var story: seq<Entry>
    ghost var owner: map<object, nat>

    /** The workers' objects are not the server's. */
    ghost predicate Apart()
      reads this`owner, server
    {
      && this !in owner && server !in owner
      && (forall n :: n in server.info || n in Tcp.Newcomer(server.place) ==> n !in owner)
    }

    /** The client's worker is where the client says, and shares no memory with those of others. */
    ghost predicate Served(c: Client)
      reads this`workers, this`stages, this`owner, owner.Keys
    {
      && c.id in workers && c.id in stages && stages[c.id] == c.worker.core.stage
      && (forall o :: o in workers[c.id].Memory() ==> o in owner && owner[o] == c.id)
      && workers[c.id].Is(c.worker) && workers[c.id].queue.bufferSize == config.bufferSize
    }

    ghost predicate AllServed(clients: seq<Client>)
      reads this`workers, this`stages, this`owner, owner.Keys
    {
      forall i :: 0 <= i < |clients| ==> Served(clients[i])
    }

    ghost predicate Valid()
      reads this, server, server.nodes, server.info.Keys, Tcp.Newcomer(server.place), owner.Keys
    {
      && server.Valid() && Apart() && AllServed(Everyone(server.State()))
      && WorkersOk(server.State()) && Recorded(server.State(), story) && WaitsAlone(server.State())
      && server.State().admits == Serves(config, lib)
    }

    ghost function State(): Server
      requires Valid()
      reads this, server, server.nodes, server.info.Keys, Tcp.Newcomer(server.place), owner.Keys
    {
      server.State()
    }

    /** Where the machine gets to by an event. */
    ghost function After(e: Event): Server
      requires Valid() && Enabled(State(), e)
      reads this, server, server.nodes, server.info.Keys, Tcp.Newcomer(server.place), owner.Keys
    {
      Step(State(), e)
    }

    constructor (config: ClientSetup.ServerConfig, lib: ClientSetup.MathLib, build: XlatingCf32.Build)
      ensures Valid() && State() == Initial(Serves(config, lib)) && story == []
      ensures this.config == config && this.lib == lib
    {
      this.config, this.lib, this.build := config, lib, build;
      server := new Tcp.TcpServer(Serves(config, lib));
      workers, stages, story, owner := map[], map[], [], map[];
      new;
      InitialInvariant(Serves(config, lib));
    }

    // ---- One worker at a time: the others stay where they are ----

    /** The objects of all workers but one. */
    ghost function Others(id: nat): set<object>
      reads this`owner
    {
      set o | o in owner && owner[o] != id
    }

    /** Client `d` is served as before by a worker that no change since has touched. */
    twostate lemma StillServed(id: nat, new d: Client)
      requires old(Served(d)) && d.id != id && workers == old(workers) && owner == old(owner)
      requires id in stages && stages == old(stages)[id := stages[id]] && unchanged(Others(id))
      ensures Served(d)
    {
      var w := workers[d.id];
      assert w.Memory() <= Others(id);
      assert old(w.Is(d.worker)) && w.Is(d.worker);
    }

    ghost predicate OthersServed(clients: seq<Client>, id: nat)
      reads this`workers, this`stages, this`owner, owner.Keys
    {
      forall i :: 0 <= i < |clients| ==> clients[i].id == id || Served(clients[i])
    }

    twostate lemma OthersStillServed(new clients: seq<Client>, id: nat)
      requires old(AllServed(clients)) && workers == old(workers) && owner == old(owner)
      requires id in stages && stages == old(stages)[id := stages[id]] && unchanged(Others(id))
      ensures OthersServed(clients, id)
    {
      forall i | 0 <= i < |clients| && clients[i].id != id
        ensures Served(clients[i])
      {
        StillServed(id, clients[i]);
      }
    }

    /** A block from the device for the worker of client `c`. */
    method FeedWorker(id: nat, block: W.Block, ghost c: Client, ghost clients: seq<Client>)
      requires this !in owner && AllServed(clients) && c.id == id && Served(c) && ClientOk(c)
      requires |block| <= config.bufferSize
      modifies workers[id].queue.Repr()
      ensures Served(c.(worker := W.Step(c.worker, W.Put(block))))
      ensures OthersServed(clients, id)
    {
      hide DspWorker.Worker.Is, W.Step, W.Invariant;
      assert workers[id].Memory() !! Others(id);
      PutKeepsStage(c.worker, block);
      workers[id].Receive(block, c.worker);
      OthersStillServed(clients, id);
    }

    /** One step of the loop of that worker's thread. */
    method Act(id: nat, ghost c: Client) returns (next: W.Stage)
      requires this !in owner && c.id == id && Served(c) && ClientOk(c) && c.worker.core.stage != W.Ended
      modifies workers[id].Memory()
      ensures unchanged(Others(id))
      ensures workers[id].Is(Moved(c).worker) && next == Moved(c).worker.core.stage
    {
      hide DspWorker.Worker.Is, W.Step, W.OwnStep, W.Invariant;
      assert workers[id].Memory() !! Others(id);
      next := workers[id].Act(stages[id], c.worker);
    }

    method RunWorker(id: nat, ghost c: Client, ghost clients: seq<Client>)
      requires this !in owner && AllServed(clients) && c.id == id && Served(c) && ClientOk(c)
      requires c.worker.core.stage != W.Ended
      modifies this`stages, workers[id].Memory()
      ensures Served(Moved(c))
      ensures OthersServed(clients, id)
    {
      hide DspWorker.Worker.Is, W.Step, W.OwnStep, W.Invariant;
      var next := Act(id, c);
      stages := stages[id := next];
      OthersStillServed(clients, id);
    }

    /** The socket is closed, the worker interrupted and its thread joined. */
    method JoinWorker(id: nat, ghost c: Client)
      requires this !in owner && c.id == id && Served(c) && ClientOk(c) && c.running
      modifies workers[id].Memory()
      ensures unchanged(Others(id))
      ensures workers[id].Is(Stopped(c).worker)
    {
      hide DspWorker.Worker.Is, W.Disconnected, W.Invariant;
      assert workers[id].Memory() !! Others(id);
      assert c.worker.core.stage != W.Ended by {
        RunningGoesOn(c);
      }
      workers[id].Disconnect(stages[id], c.worker);
    }

    method DisconnectWorker(id: nat, ghost c: Client, ghost clients: seq<Client>)
      requires this !in owner && AllServed(clients) && c.id == id && Served(c) && ClientOk(c) && c.running
      modifies this`stages, workers[id].Memory()
      ensures Served(Stopped(c))
      ensures OthersServed(clients, id)
    {
      hide DspWorker.Worker.Is, W.Disconnected, W.Invariant;
      StoppedOk(c);
      StoppedEnds(c);
      JoinWorker(id, c);
      stages := stages[id := W.Ended];
      OthersStillServed(clients, id);
    }

    /** The socket alone is closed. */
    method MuteWorker(id: nat, ghost c: Client, ghost clients: seq<Client>)
      requires this !in owner && AllServed(clients) && c.id == id && Served(c) && ClientOk(c)
      modifies workers[id]
      ensures Served(Muted(c))
      ensures OthersServed(clients, id)
    {
      hide DspWorker.Worker.Is, W.Step, W.Invariant;
      assert workers[id].Memory() !! Others(id);
      CloseKeepsStage(c.worker);
      workers[id].HangUp(c.worker);
      OthersStillServed(clients, id);
    }

    // ---- Steps in which a worker takes part ----

    /** Server and workers fit together, in the middle of a section as well. */
    ghost predicate Connected()
      reads this, server, server.nodes, server.info.Keys, Tcp.Newcomer(server.place), owner.Keys
    {
      && server.Valid() && Apart()
      && AllServed(Everyone(server.State())) && DistinctIds(Everyone(server.State()))
    }

    /** One client has moved, and so has its worker. */
    lemma AllStillServed(clients: seq<Client>, i: nat, c: Client)
      requires i < |clients| && DistinctIds(clients) && c.id == clients[i].id
      requires OthersServed(clients, c.id) && Served(c)
      ensures AllServed(clients[i := c])
    {
    }

    /** Feeds one worker; the server does not notice. */
    method FeedOne(id: nat, block: W.Block, ghost i: nat, ghost c: Client) returns (ghost c': Client)
      requires Connected() && i < |Everyone(server.State())| && Everyone(server.State())[i] == c && c.id == id
      requires ClientOk(c) && |block| <= config.bufferSize
      modifies owner.Keys
      ensures server.Valid() && server.State() == old(server.State()) && Apart()
      ensures c' == c.(worker := W.Step(c.worker, W.Put(block))) && AllServed(Everyone(server.State())[i := c'])
    {
      hide DspWorker.Worker.Is, W.Step, W.Invariant;
      ghost var s, everyone := server.State(), Everyone(server.State());
      c' := c.(worker := W.Step(c.worker, W.Put(block)));
      FeedWorker(id, block, c, everyone);
      assert server.Valid() && server.State() == s && Apart();
      AllStillServed(everyone, i, c');
    }

    /** Runs one worker for one step of its loop. */
    method RunOne(id: nat, ghost i: nat, ghost c: Client) returns (ghost c': Client)
      requires Connected() && i < |Everyone(server.State())| && Everyone(server.State())[i] == c && c.id == id
      requires ClientOk(c) && c.worker.core.stage != W.Ended
      modifies owner.Keys, this`stages
      ensures server.Valid() && server.State() == old(server.State()) && Apart()
      ensures c' == Moved(c) && AllServed(Everyone(server.State())[i := c'])
    {
      hide DspWorker.Worker.Is, W.Step, W.Invariant;
      ghost var s, everyone := server.State(), Everyone(server.State());
      c' := Moved(c);
      RunWorker(id, c, everyone);
      assert server.Valid() && server.State() == s && Apart();
      AllStillServed(everyone, i, c');
    }

    /** Disconnects one worker. */
    method DisconnectOne(id: nat, ghost i: nat, ghost c: Client) returns (ghost c': Client)
      requires Connected() && i < |Everyone(server.State())| && Everyone(server.State())[i] == c && c.id == id
      requires ClientOk(c) && c.running
      modifies owner.Keys, this`stages
      ensures server.Valid() && server.State() == old(server.State()) && Apart()
      ensures c' == Stopped(c) && AllServed(Everyone(server.State())[i := c'])
    {
      hide DspWorker.Worker.Is, ClientOk, W.Step, W.Disconnected;
      ghost var s, everyone := server.State(), Everyone(server.State());
      c' := Stopped(c);
      DisconnectWorker(id, c, everyone);
      assert server.Valid() && server.State() == s && Apart();
      AllStillServed(everyone, i, c');
    }

    /** Closes one client's socket. */
    method MuteOne(id: nat, ghost i: nat, ghost c: Client) returns (ghost c': Client)
      requires Connected() && i < |Everyone(server.State())| && Everyone(server.State())[i] == c && c.id == id
      requires ClientOk(c)
      modifies owner.Keys
      ensures server.Valid() && server.State() == old(server.State()) && Apart()
      ensures c' == Muted(c) && AllServed(Everyone(server.State())[i := c'])
    {
      hide DspWorker.Worker.Is, ClientOk, W.Step;
      ghost var s, everyone := server.State(), Everyone(server.State());
      c' := Muted(c);
      MuteWorker(id, c, everyone);
      assert server.Valid() && server.State() == s && Apart();
      AllStillServed(everyone, i, c');
    }

    /** In `sdr_callback`, for one running node. */
    method FeedNode(node: Tcp.Node, block: W.Block, ghost k: nat)
      requires Connected() && k < |server.nodes| && server.nodes[k] == node && node.isRunning
      requires ClientOk(server.State().clients[k]) && |block| <= config.bufferSize
      modifies owner.Keys, server`info
      ensures Connected() && server.nodes == old(server.nodes)
      ensures server.State() == old(server.State()).(clients :=
                old(server.State()).clients[k := Fed(old(server.State()).clients[k], block)])
    {
      hide DspWorker.Worker.Is, ClientOk, W.Step, Served;
      ghost var s := server.State();
      ghost var c, everyone := s.clients[k], Everyone(s);
      assert everyone[k] == c;
      ghost var c' := FeedOne(node.id, block, k, c);
      server.NoteWorker(node, k, c'.worker);
      assert Everyone(server.State()) == everyone[k := c'];
    }

    lemma RecordedDistinct(s: Server)
      requires Recorded(s, story)
      ensures DistinctIds(Everyone(s))
    {
      if HasClient(s.acceptor) {
        forall i | 0 <= i < |s.clients|
          ensures s.clients[i].id != s.acceptor.client.id
        {
          NewcomerDiffers(s, story, i);
        }
      }
    }

    /** A step of the machine has been made and recorded. */
    ghost method Note(s: Server, e: Event)
      requires server.Valid() && Apart() && AllServed(Everyone(server.State()))
      requires WorkersOk(s) && Recorded(s, story) && Enabled(s, e) && s.admits == Serves(config, lib)
      requires server.State() == Step(s, e) && WaitsAlone(s)
      modifies this`story
      ensures Valid() && State() == Step(s, e) && story == old(story) + Observed(s, e)
    {
      hide ClientOk, Recorded, Enabled, Step, Observed, Served, Serves;
      WorkersStep(s, e);
      StepRecorded(s, story, e);
      StillWaitsAlone(s, e);
      story := story + Observed(s, e);
    }

    /** `sdr_callback`. */
    method Deliver(block: W.Block)
      requires Valid() && Enabled(State(), ServerSpec.Deliver(block)) && |block| <= config.bufferSize
      modifies owner.Keys, server`info, this`story
      ensures Valid() && State() == old(After(ServerSpec.Deliver(block)))
      ensures story == old(story) + [Delivered(block)]
    {
      hide DspWorker.Worker.Is, Recorded, Served, Serves, W.Step, W.Invariant, Fed, UpTo;
      ghost var s, k := State(), 0;
      ghost var all := FedAll(s.clients, block);
      RecordedDistinct(s);
      var currentNode := server.tcpNodes;
      while currentNode != null
        invariant Connected() && k <= |server.nodes| == |s.clients|
        invariant currentNode == (if k < |server.nodes| then server.nodes[k] else null)
        invariant server.State() == s.(clients := UpTo(all, s.clients, k))
        modifies owner.Keys, server`info
        decreases |server.nodes| - k
      {
        OneFurther(all, s.clients, k);
        assert server.State().clients[k] == s.clients[k];
        if currentNode.isRunning {
          FeedNode(currentNode, block, k);
        }
        currentNode := currentNode.next;
        k := k + 1;
      }
      Note(s, ServerSpec.Deliver(block));
    }

    /** The exit section of `tcp_worker` for a linked client. */
    method Exit(node: Tcp.Node, ghost i: nat)
      requires Valid() && i < |server.nodes| && server.nodes[i] == node && Enabled(State(), Leave(i))
      modifies owner.Keys, this`stages, this`story
      modifies server`info, server`thread, server`shutdownThreadCreated, node`isRunning
      ensures Valid() && State() == old(After(Leave(i)))
      ensures story == old(story) + [Left(node.id)]
    {
      hide DspWorker.Worker.Is, Recorded, Serves, Served, W.Disconnected, W.Invariant;
      ghost var s := State();
      ghost var c, everyone := s.clients[i], Everyone(s);
      RecordedDistinct(s);
      assert everyone[i] == c;
      ghost var c' := DisconnectOne(node.id, i, c);
      assert node !in owner;
      server.Exit(node, i);
      assert Everyone(server.State()) == everyone[i := c'];
      Note(s, Leave(i));
    }

    /** The same section for the client the acceptor holds. */
    method ExitNewcomer(node: Tcp.Node)
      requires Valid() && Enabled(State(), LeaveUnlinked) && server.place.node == node
      modifies owner.Keys, this`stages, this`story
      modifies server`place, server`thread, server`shutdownThreadCreated, node`isRunning
      ensures Valid() && State() == old(After(LeaveUnlinked))
      ensures story == old(story) + [Left(node.id)]
    {
      hide DspWorker.Worker.Is, Recorded, Serves, Served, W.Disconnected, W.Invariant;
      ghost var s := State();
      ghost var c, everyone := s.acceptor.client, Everyone(s);
      RecordedDistinct(s);
      assert everyone[|s.clients|] == c;
      ghost var c' := DisconnectOne(node.id, |s.clients|, c);
      assert node !in owner;
      server.ExitNewcomer(node);
      assert Everyone(server.State()) == everyone[|s.clients| := c'];
      Note(s, LeaveUnlinked);
    }

    /** The acceptor, draining, shuts down the socket of the first client. */
    method HangUp(node: Tcp.Node)
      requires Valid() && Enabled(State(), ServerSpec.HangUp) && |server.nodes| > 0 && server.nodes[0] == node
      modifies owner.Keys, this`story, server`info
      ensures Valid() && State() == old(After(ServerSpec.HangUp))
      ensures story == old(story) + [HungUp(node.id)]
    {
      hide DspWorker.Worker.Is, Recorded, Serves, Served, W.Step, W.Invariant;
      ghost var s := State();
      ghost var c, everyone := s.clients[0], Everyone(s);
      RecordedDistinct(s);
      assert everyone[0] == c;
      ghost var c' := MuteOne(node.id, 0, c);
      server.NoteWorker(node, 0, c'.worker);
      assert Everyone(server.State()) == everyone[0 := c'];
      Note(s, ServerSpec.HangUp);
    }

    /** The thread of a linked client's worker makes the next step of its loop. */
    method Work(node: Tcp.Node, ghost i: nat, ghost step: W.Event)
      requires Valid() && i < |server.nodes| && server.nodes[i] == node && Enabled(State(), ServerSpec.Work(i, step))
      requires var stage := State().clients[i].worker.core.stage; stage != W.Ended && step == W.OwnStep(stage)
      modifies owner.Keys, this`stages, this`story, server`info
      ensures Valid() && State() == old(After(ServerSpec.Work(i, step)))
      ensures story == old(story) + [Worked(node.id, step)]
    {
      hide DspWorker.Worker.Is, Recorded, Serves, Served, W.Step, W.Invariant;
      ghost var s := State();
      ghost var c, everyone := s.clients[i], Everyone(s);
      RecordedDistinct(s);
      assert everyone[i] == c;
      ghost var c' := RunOne(node.id, i, c);
      server.NoteWorker(node, i, c'.worker);
      assert Everyone(server.State()) == everyone[i := c'];
      Note(s, ServerSpec.Work(i, step));
    }

    /** The server learns where the worker of the client that the acceptor holds has got to. */
    ghost method NewcomerMoved(c: Client)
      requires server.Valid() && Apart() && Tcp.HasNode(server.place)
      requires c == server.State().acceptor.client.(worker := c.worker)
      requires AllServed(Everyone(server.State())[|server.nodes| := c])
      modifies server`place
      ensures server.Valid() && Apart() && AllServed(Everyone(server.State())) && Tcp.HasNode(server.place)
      ensures server.State() == old(server.State()).(acceptor := WithClient(old(server.State()).acceptor, c))
    {
      hide DspWorker.Worker.Is, Served;
      var s := server.State();
      server.NoteNewcomer(c.worker);
      assert Everyone(server.State()) == Everyone(s)[|s.clients| := c];
    }

    /** The worker of the client that the acceptor holds makes the next step of its loop. */
    method RunNewcomer(node: Tcp.Node)
      requires Connected() && Tcp.HasNode(server.place) && server.place.node == node
      requires ClientOk(server.State().acceptor.client) && server.place.what.worker.core.stage != W.Ended
      modifies owner.Keys, this`stages, server`place
      ensures server.Valid() && Apart() && AllServed(Everyone(server.State()))
      ensures server.State() == old(server.State()).(
                acceptor := WithClient(old(server.State()).acceptor, Moved(old(server.State()).acceptor.client)))
    {
      hide DspWorker.Worker.Is, Served, ClientOk, W.Step, W.OwnStep, DistinctIds;
      ghost var s := server.State();
      assert Everyone(s)[|s.clients|] == s.acceptor.client;
      ghost var c := RunOne(node.id, |s.clients|, s.acceptor.client);
      NewcomerMoved(c);
    }

    /** The same, as a step of the service. */
    method WorkNewcomer(node: Tcp.Node, ghost step: W.Event)
      requires Valid() && Enabled(State(), WorkUnlinked(step))
      requires Tcp.HasNode(server.place) && server.place.node == node
      requires var stage := server.place.what.worker.core.stage; stage != W.Ended && step == W.OwnStep(stage)
      modifies owner.Keys, this`stages, this`story, server`place
      ensures Valid() && State() == old(After(WorkUnlinked(step)))
      ensures story == old(story) + [Worked(node.id, step)]
    {
      hide DspWorker.Worker.Is, Recorded, Serves, Served, ClientOk, W.OwnStep, DistinctIds, Step, Moved;
      ghost var s := State();
      RecordedDistinct(s);
      NewcomerStep(s, step);
      RunNewcomer(node);
      Note(s, WorkUnlinked(step));
    }

    // ---- Steps that leave the workers alone ----

    lemma FewerServed(clients: seq<Client>, fewer: seq<Client>)
      requires AllServed(clients) && forall i :: 0 <= i < |fewer| ==> fewer[i] in clients
      ensures AllServed(fewer)
    {
      forall i | 0 <= i < |fewer|
        ensures Served(fewer[i])
      {
        var j :| 0 <= j < |clients| && clients[j] == fewer[i];
        assert Served(clients[j]);
      }
    }

    /** The mutex section of `handle_new_client`, up to the wait if there is one. */
    method Register(node: Tcp.Node, deviceStarts: bool)
      requires Valid() && Enabled(State(), ServerSpec.Register(deviceStarts)) && server.place.node == node
      modifies server, server.info.Keys`next, this`story
      ensures Valid() && State() == old(After(ServerSpec.Register(deviceStarts)))
      ensures story == old(story) + Observed(old(State()), ServerSpec.Register(deviceStarts))
    {
      hide DspWorker.Worker.Is, Recorded, Serves, Served, ClientOk;
      ghost var s := State();
      NobodyNew(s, ServerSpec.Register(deviceStarts));
      FewerServed(Everyone(s), Everyone(Step(s, ServerSpec.Register(deviceStarts))));
      server.Register(node, deviceStarts);
      Note(s, ServerSpec.Register(deviceStarts));
    }

    /** The same section after its wait. */
    method Resume(node: Tcp.Node, deviceStarts: bool)
      requires Valid() && Enabled(State(), ServerSpec.Resume(deviceStarts)) && server.place.node == node
      modifies server, server.info.Keys`next, this`story
      ensures Valid() && State() == old(After(ServerSpec.Resume(deviceStarts)))
      ensures story == old(story) + Observed(old(State()), ServerSpec.Resume(deviceStarts))
    {
      hide DspWorker.Worker.Is, Recorded, Serves, Served, ClientOk;
      ghost var s := State();
      NobodyNew(s, ServerSpec.Resume(deviceStarts));
      FewerServed(Everyone(s), Everyone(Step(s, ServerSpec.Resume(deviceStarts))));
      server.Resume(node, deviceStarts);
      Note(s, ServerSpec.Resume(deviceStarts));
    }

    /** The steps that nobody sees: of the shutdown thread, of turning a client away and of the final drain. */
    method Quiet(e: Event)
      requires Valid() && Enabled(State(), e)
      requires e.Dismiss? || e.StopDevice? || e.Release? || e.Shutdown? || e.DrainHead? || e.DrainEnd?
      modifies server, this`story
      ensures Valid() && State() == old(After(e)) && story == old(story)
    {
      hide DspWorker.Worker.Is, Recorded, Serves, Served, ClientOk;
      ghost var s := State();
      NobodyNew(s, e);
      FewerServed(Everyone(s), Everyone(Step(s, e)));
      server.Quiet(e);
      Note(s, e);
    }

    // ---- Admission ----

    /** A connection that is not served; it gets a number all the same. */
    method Refuse()
      requires Valid() && State().acceptor == Accepting
      modifies server`clientCounter, this`story
      ensures Valid() && State() == old(After(ServerSpec.Refuse)) && story == old(story)
    {
      hide DspWorker.Worker.Is, Recorded, Serves, Served, ClientOk;
      ghost var s := State();
      server.Refuse();
      assert Everyone(server.State()) == Everyone(s);
      Note(s, ServerSpec.Refuse);
    }

    /** A new worker becomes known under a new number. */
    method Attach(id: nat, worker: DspWorker.Worker, ghost c: Client, ghost clients: seq<Client>)
      requires AllServed(clients) && c.id == id && forall i :: 0 <= i < |clients| ==> clients[i].id != id
      requires worker.Is(c.worker) && c.worker.core.stage == W.Ready && worker.queue.bufferSize == config.bufferSize
      requires worker.Memory() !! owner.Keys && this !in worker.Memory() && this !in owner
      modifies this`workers, this`stages, this`owner
      ensures AllServed(clients) && Served(c) && owner.Keys == old(owner.Keys) + worker.Memory()
      ensures id in workers && workers[id] == worker
    {
      hide DspWorker.Worker.Is;
      ghost var more := map o | o in worker.Memory() :: id;
      assert more.Keys == worker.Memory();
      workers := workers[id := worker];
      stages := stages[id := W.Ready];
      owner := owner + more;
      forall i | 0 <= i < |clients|
        ensures Served(clients[i])
      {
        ServedAlong(clients[i], id);
      }
    }

    /** A client is served as before when nothing but another one's worker becomes known. */
    twostate lemma ServedAlong(new c: Client, id: nat)
      requires old(Served(c)) && c.id != id && this !in old(owner)
      requires id in workers && workers == old(workers)[id := workers[id]]
      requires id in stages && stages == old(stages)[id := stages[id]]
      requires (forall o :: o in old(owner) ==> o in owner && owner[o] == old(owner)[o]) && unchanged(old(owner).Keys)
      ensures Served(c)
    {
      hide DspWorker.Worker.Is;
      var w := workers[c.id];
      assert w.Memory() <= old(owner).Keys;
      assert w == old(workers)[c.id];
    }

    /** The client's node is created and its worker known under its number. */
    method Admit(request: Admission.Request, worker: DspWorker.Worker, ghost setup: W.Setup)
      returns (node: Tcp.Node)
      requires Valid() && Enabled(State(), Start(request, setup))
      requires worker.Is(W.Initial(setup)) && worker.queue.bufferSize == config.bufferSize
      requires worker.Memory() !! owner.Keys && this !in worker.Memory() && server !in worker.Memory()
      requires forall n :: n in server.info || n in Tcp.Newcomer(server.place) ==> n !in worker.Memory()
      modifies this`workers, this`stages, this`owner, this`story, server`place, server`clientCounter
      ensures Valid() && State() == old(After(Start(request, setup)))
      ensures story == old(story) + [Started(old(State()).counter, request, setup)]
      ensures Tcp.HasNode(server.place) && node == server.place.node
      ensures node.id in workers && workers[node.id] == worker
    {
      hide DspWorker.Worker.Is, Recorded, ClientOk, Serves, Served, W.Initial, W.Invariant;
      ghost var s := State();
      ghost var c := NewClient(s.counter, request, setup);
      NumbersBelow(s);
      StartsReady(setup);
      assert s.counter == server.clientCounter + 1 && Everyone(s) == s.clients;
      Attach(server.clientCounter + 1, worker, c, s.clients);
      assert server.State() == s && Apart();
      assert AllServed(s.clients + [c]);
      node := Begin(request, setup);
    }

    /** The new client's node, once its worker is known. */
    method Begin(request: Admission.Request, ghost setup: W.Setup) returns (node: Tcp.Node)
      requires server.Valid() && Apart() && WorkersOk(server.State()) && Recorded(server.State(), story)
      requires WaitsAlone(server.State()) && server.State().admits == Serves(config, lib)
      requires Enabled(server.State(), Start(request, setup))
      requires AllServed(server.State().clients + [NewClient(server.State().counter, request, setup)])
      modifies this`story, server`place, server`clientCounter
      ensures Valid() && State() == Step(old(server.State()), Start(request, setup))
      ensures story == old(story) + [Started(old(server.State()).counter, request, setup)]
      ensures Tcp.HasNode(server.place) && node == server.place.node && node.id == old(server.clientCounter) + 1
    {
      hide DspWorker.Worker.Is, Recorded, ClientOk, Serves, Served, W.Initial, W.Invariant;
      ghost var s, known := server.State(), owner.Keys;
      node := server.Start(request, setup);
      assert node !in known && Tcp.Newcomer(server.place) == {node};
      assert Everyone(server.State()) == s.clients + [NewClient(s.counter, request, setup)];
      Note(s, Start(request, setup));
    }

    lemma NumbersBelow(s: Server)
      requires Recorded(s, story)
      ensures forall i :: 0 <= i < |Everyone(s)| ==> Everyone(s)[i].id < s.counter
    {
    }

    /**
     `handle_new_client` up to the start of the client's threads: a request that passes the checks, and
     for which a worker can be started, becomes a client; any other connection is refused.
     */
    method Connect(request: Admission.Request, baseAddress: nat) returns (node: Tcp.Node?)
      requires Valid() && State().acceptor == Accepting
      requires config.lpfCutoffRate > 0 && config.queueSize >= 2 && baseAddress % XlatingCf32.ALIGNMENT == 0
      requires Admission.Accepted(request, config.bandRate) ==> ClientSetup.Sound(lib, request, config)
      modifies this`workers, this`stages, this`owner, this`story, server`place, server`clientCounter
      ensures Valid()
      ensures node != null <==>
                && Admission.Accepted(request, config.bandRate) && config.bandRate > 0
                && request.samplingRate >= 2 && request.samplingRate as nat >= config.lpfCutoffRate
      ensures node == null ==> State() == old(After(ServerSpec.Refuse)) && story == old(story)
      ensures node != null ==>
                && node.id in workers
                && var setup := workers[node.id].setup;
                && Enabled(old(State()), Start(request, setup))
                && State() == old(After(Start(request, setup)))
                && story == old(story) + [Started(old(State()).counter, request, setup)]
    {
      hide DspWorker.Worker.Is, Recorded, ClientOk, Served, ClientSetup.Admitted, ClientSetup.Sound, Serves;
      hide Admission.Accepted, WorkersOk;
      ghost var s := State();
      node := null;
      if !Admission.Accepted(request, config.bandRate) {
        Refuse();
        return;
      }
      var code, worker := WorkerStart.Start(build, request, config, lib, baseAddress);
      if worker == null {
        Refuse();
        return;
      }
      MayStart(s, request, worker.setup);
      assert server.Valid();
      assert server.State() == s;
      assert Apart();
      assert AllServed(Everyone(s));
      node := Admit(request, worker, worker.setup);
    }

    lemma MayStart(s: Server, request: Admission.Request, setup: W.Setup)
      requires s.acceptor == Accepting && s.admits == Serves(config, lib)
      requires ClientSetup.Admitted(request, setup, config, lib)
      ensures Enabled(s, Start(request, setup))
    {
    }

    /** What has arrived at a client's destination, in the service as it stands. */
    lemma DestinationHolds(k: Client)
      requires Valid() && Present(State(), k)
      ensures StartedAs(story, k, config, lib) && Sent(story, k)
      ensures k.id in workers && workers[k.id].setup == k.worker.setup
      ensures workers[k.id].destination == k.worker.core.arrived
    {
      hide ClientOk, Recorded, WorkersOk, Sent, Received, StartedAs;
      var s := State();
      InEveryone(s, k);
      assert Served(k);
      RecordedTells(s, story, k, config, lib);
    }
  }
}
