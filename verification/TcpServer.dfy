/**
 The server on the heap: the linked list of clients and the fields guarded by the server mutex. Each
 mutex section is a method that makes exactly one step of `ServerSpec`. The dsp workers behind the
 clients are abstract values.
 */
module TcpServer {
  import opened ServerSpec
  import Admission
  import W = WorkerSpec

  /** A client: `next`, and of its configuration the number, the band frequency and `is_running`. */
  class Node {
    const id: nat
    const bandFreq: nat
    var isRunning: bool
    var next: Node?

    constructor (id: nat, bandFreq: nat)
      ensures this.id == id && this.bandFreq == bandFreq && isRunning && next == null
    {
      this.id, this.bandFreq, isRunning, next := id, bandFreq, true, null;
    }
  }

  /** A null-terminated list of nodes starting at `first`. */
  ghost predicate IsChain(first: Node?, s: seq<Node>)
    reads s`next
  {
    && first == (if s == [] then null else s[0])
    && forall i {:trigger s[i].next} :: 0 <= i < |s| ==> s[i].next == if i < |s| - 1 then s[i + 1] else null
  }

  ghost predicate NoDuplicates(s: seq<Node>) {
    forall i, j :: 0 <= i < j < |s| ==> s[i] != s[j]
  }

  /** What the server knows about a client besides its place in the list. */
  datatype Info = Info(running: bool, worker: W.Worker)

  ghost function ClientOf(n: Node, info: map<Node, Info>): Client
    requires n in info
  {
    Client(n.id, n.bandFreq, info[n].running, info[n].worker)
  }

  ghost function ClientsOf(s: seq<Node>, info: map<Node, Info>): (c: seq<Client>)
    requires forall i :: 0 <= i < |s| ==> s[i] in info
    ensures |c| == |s|
  {
    seq(|s|, i requires 0 <= i < |s| => ClientOf(s[i], info))
  }

  /** Where the acceptor thread is, with the client it holds, if any. */
  datatype Place =
    | AtAccept
    | AtRegister(node: Node, what: Info)
    | AtWait(node: Node, what: Info)
    | AtTurnAway(node: Node, what: Info)
    | AtDrain
    | AtEnd
    | AtJoin(node: Node, what: Info)
    | AtLastJoin

  predicate HasNode(p: Place) {
    p.AtRegister? || p.AtWait? || p.AtTurnAway? || p.AtJoin?
  }

  ghost function Newcomer(p: Place): set<Node> {
    if HasNode(p) then {p.node} else {}
  }

  function NewcomerClient(p: Place): Client
    requires HasNode(p)
  {
    Client(p.node.id, p.node.bandFreq, p.what.running, p.what.worker)
  }

  function AcceptorAt(p: Place): Acceptor {
    match p
    case AtAccept => Accepting
    case AtRegister(_, _) => Starting(NewcomerClient(p))
    case AtWait(_, _) => Waiting(NewcomerClient(p))
    case AtTurnAway(_, _) => TurningAway(NewcomerClient(p))
    case AtDrain => Draining
    case AtEnd => Done
    case AtJoin(_, _) => Joining(NewcomerClient(p))
    case AtLastJoin => JoiningAtEnd
  }

  function WithInfo(p: Place, what: Info): Place
    requires HasNode(p)
  {
    match p
    case AtRegister(node, _) => AtRegister(node, what)
    case AtWait(node, _) => AtWait(node, what)
    case AtTurnAway(node, _) => AtTurnAway(node, what)
    case AtJoin(node, _) => AtJoin(node, what)
  }

  ghost function RunningNodes(s: seq<Node>, info: map<Node, Info>): (r: seq<Node>)
    requires forall i :: 0 <= i < |s| ==> s[i] in info
    ensures forall i :: 0 <= i < |r| ==> r[i] in info
  {
    if s == [] then []
    else
      var last := s[|s| - 1];
      var front := RunningNodes(s[..|s| - 1], info);
      if info[last].running then front + [last] else front
  }

  class TcpServer {
    var tcpNodes: Node?
    var sdrStopped: bool
    var shutdownThreadCreated: bool
    var currentBandFreq: nat
    /** The number of the latest client. */
    var clientCounter: int
    /** The shutdown thread, as `pthread_join` finds it. */
    var thread: ShutdownThread

    /** Which requests are served, and with which setup. */
    ghost const admits: Gate
    /** The linked nodes in order, what is known about every node that was linked, the acceptor's place, the device. */
    ghost var nodes: seq<Node>
    ghost var info: map<Node, Info>
    ghost var place: Place
    ghost var device: Device

    /** A node's configuration says what is known about it. */
    ghost predicate InfoTrue()
      reads this`info, info.Keys`isRunning
    {
      forall n :: n in info ==> n.isRunning == info[n].running
    }

    /** The acceptor's client is not linked. */
    ghost predicate NewcomerOk()
      reads this`info, this`place, Newcomer(place)
    {
      HasNode(place) ==> place.node !in info && place.node.next == null && place.node.isRunning == place.what.running
    }

    ghost predicate Linked()
      reads this`tcpNodes, this`nodes, this`info, nodes`next
    {
      && IsChain(tcpNodes, nodes) && NoDuplicates(nodes)
      && (forall i :: 0 <= i < |nodes| ==> nodes[i] in info)
    }

    ghost predicate Valid()
      reads this, nodes, info.Keys, Newcomer(place)
    {
      && Linked() && InfoTrue() && NewcomerOk()
      && (shutdownThreadCreated <==> thread != NoThread) && clientCounter >= -1
    }

    /** The server of `ServerSpec`. */
    ghost function State(): Server
      requires Valid()
      reads this, nodes, info.Keys, Newcomer(place)
    {
      Server(admits, clientCounter + 1, ClientsOf(nodes, info), AcceptorAt(place), thread, sdrStopped,
             currentBandFreq, device)
    }

    constructor (ghost admits: Gate)
      ensures Valid() && State() == Initial(admits)
    {
      tcpNodes, sdrStopped, shutdownThreadCreated, currentBandFreq, clientCounter := null, true, false, 0, -1;
      thread := NoThread;
      this.admits := admits;
      nodes, info, place, device := [], map[], AtAccept, Off;
    }

    /** Takes the node at position `k` out of the list. */
    method Unlink(curNode: Node, previous: Node?, ghost s: seq<Node>, ghost k: nat)
      requires IsChain(tcpNodes, s) && NoDuplicates(s) && k < |s| && curNode == s[k]
      requires previous == if k == 0 then null else s[k - 1]
      modifies this`tcpNodes, (if previous == null then {} else {previous})`next
      ensures IsChain(tcpNodes, Without(s, k))
    {
      if previous == null {
        tcpNodes := curNode.next;
      } else {
        previous.next := curNode.next;
      }
    }

    /** The list is `s`; the scan is at its position `k`, having looked at `m` of `all`. */
    ghost predicate Scanning(all: seq<Node>, m: nat, s: seq<Node>, k: nat, curNode: Node?, previous: Node?)
      reads this`tcpNodes, this`info, s`next
    {
      && CleanedUp(all, m, s, k, info)
      && IsChain(tcpNodes, s)
      && curNode == (if k < |s| then s[k] else null)
      && previous == (if k == 0 then null else s[k - 1])
    }

    /** A terminated node is unlinked, the scan goes on behind it. */
    method Drop(curNode: Node, previous: Node?, ghost all: seq<Node>, ghost m: nat, ghost s: seq<Node>, ghost k: nat)
      returns (next: Node?)
      requires Scanning(all, m, s, k, curNode, previous) && !info[s[k]].running
      modifies this`tcpNodes, (if previous == null then {} else {previous})`next
      ensures Scanning(all, m + 1, Without(s, k), k, next, previous)
    {
      OneMore(all, m, s, k, info);
      next := curNode.next;
      Unlink(curNode, previous, s, k);
      assert next == if k + 1 < |s| then s[k + 1] else null;
    }

    lemma Keep(all: seq<Node>, m: nat, s: seq<Node>, k: nat, curNode: Node, previous: Node?)
      requires Scanning(all, m, s, k, curNode, previous) && info[s[k]].running
      ensures Scanning(all, m + 1, s, k + 1, curNode.next, curNode)
    {
      OneMore(all, m, s, k, info);
    }

    /** The loop of `cleanup_terminated_threads`; the nodes still linked at its end are `s`. */
    method Sweep() returns (ghost s: seq<Node>)
      requires Linked() && InfoTrue()
      modifies this`tcpNodes, info.Keys`next
      ensures IsChain(tcpNodes, s) && NoDuplicates(s) && (forall i :: 0 <= i < |s| ==> s[i] in info)
      ensures s == RunningNodes(nodes, info)
    {
      ghost var all, m, k := nodes, 0, 0;
      s := nodes;
      var curNode, previous: Node? := tcpNodes, null;
      ScanStarts(all, info);
      while curNode != null
        invariant Scanning(all, m, s, k, curNode, previous)
        decreases |all| - m
      {
        InList(all, m, s, k, info);
        if curNode.isRunning {
          Keep(all, m, s, k, curNode, previous);
          previous := curNode;
          curNode := curNode.next;
          k := k + 1;
        } else {
          curNode := Drop(curNode, previous, all, m, s, k);
          s := Without(s, k);
        }
        m := m + 1;
      }
      AllDone(all, m, s, k, info);
    }

    /** `cleanup_terminated_threads`: unlinks every node that is no longer running. */
    method Cleanup()
      requires Valid()
      modifies this`tcpNodes, this`nodes, info.Keys`next
      ensures Valid() && State() == old(State()).(clients := Running(old(State()).clients))
    {
      KeptClients(nodes, info);
      ghost var s := Sweep();
      nodes := s;
    }

    /** Goes to the last node and appends the new one. */
    method Append(node: Node)
      requires Linked() && nodes != [] && node !in info && node.next == null
      modifies info.Keys`next
      ensures IsChain(tcpNodes, nodes + [node])
    {
      ghost var k := 0;
      var curNode := tcpNodes;
      while curNode.next != null
        invariant k < |nodes| && curNode == nodes[k]
        decreases |nodes| - k
      {
        curNode := curNode.next;
        k := k + 1;
      }
      assert k == |nodes| - 1;
      curNode.next := node;
    }

    /** The scan of the exit section: is any linked client running? */
    method SomeoneRuns() returns (found: bool)
      requires Valid()
      ensures found <==> AnyRunning(State().clients)
    {
      ghost var clients, k := ClientsOf(nodes, info), 0;
      var curNode := tcpNodes;
      while curNode != null
        invariant k <= |nodes| && curNode == (if k < |nodes| then nodes[k] else null)
        invariant forall i :: 0 <= i < k ==> !clients[i].running
        decreases |nodes| - k
      {
        if curNode.isRunning {
          assert clients[k].running;
          return true;
        }
        curNode := curNode.next;
        k := k + 1;
      }
      found := false;
    }

    /** Every connection gets a number; this one is not served. */
    method Refuse()
      requires Valid() && WorkersOk(State()) && Enabled(State(), ServerSpec.Refuse)
      modifies this`clientCounter
      ensures Valid() && State() == Step(old(State()), ServerSpec.Refuse) && clientCounter == old(clientCounter) + 1
    {
      hide WorkersOk, ClientsOf, Linked, InfoTrue;
      clientCounter := clientCounter + 1;
    }

    /** A client's threads are started; it is not linked yet. */
    method Start(request: Admission.Request, ghost setup: W.Setup) returns (node: Node)
      requires Valid() && WorkersOk(State()) && Enabled(State(), ServerSpec.Start(request, setup))
      modifies this`place, this`clientCounter
      ensures Valid() && State() == Step(old(State()), ServerSpec.Start(request, setup))
      ensures fresh(node) && HasNode(place) && place.node == node && node.id == clientCounter == old(clientCounter) + 1
    {
      clientCounter := clientCounter + 1;
      node := new Node(clientCounter, request.bandFreq as nat);
      place := AtRegister(node, Info(true, W.Initial(setup)));
    }

    /** The node goes behind the last one, or becomes the first. */
    method Chain(node: Node)
      requires Linked() && node !in info && node.next == null
      modifies this`tcpNodes, info.Keys`next
      ensures IsChain(tcpNodes, nodes + [node])
    {
      if tcpNodes == null {
        tcpNodes := node;
      } else {
        Append(node);
      }
    }

    /** The newcomer is linked behind the others, or as the first. */
    method Link(node: Node)
      requires Valid() && HasNode(place) && place.node == node
      modifies this`tcpNodes, this`nodes, this`info, this`place, info.Keys`next
      ensures Valid()
      ensures State() == old(State()).(clients := old(State()).clients + [NewcomerClient(old(place))],
                                       acceptor := Accepting)
      ensures info.Keys + Newcomer(place) == old(info.Keys + Newcomer(place))
    {
      hide IsChain;
      Chain(node);
      ClientAdded(nodes, info, node, place.what);
      nodes, info, place := nodes + [node], info[node := place.what], AtAccept;
    }

    /** `pthread_join` for the shutdown thread, if there is one. */
    method JoinThread() returns (returned: bool)
      requires Valid()
      modifies this`thread, this`shutdownThreadCreated
      ensures Valid() && (returned <==> JoinReturns(old(thread)))
      ensures State() == if returned then old(State()).(thread := NoThread) else old(State())
    {
      returned := true;
      if shutdownThreadCreated {
        if JoinReturns(thread) {
          thread, shutdownThreadCreated := NoThread, false;
        } else {
          returned := false;
        }
      }
    }

    /** `sdr_device_start` has succeeded. */
    method TurnOn(node: Node)
      requires Valid()
      modifies this`device, this`sdrStopped
      ensures Valid() && State() == old(State()).(device := On(node.bandFreq), sdrStopped := false)
    {
      device, sdrStopped := On(node.bandFreq), false;
    }

    /**
     Joins the shutdown thread if there is one, starts the device and links its first client. A join that
     does not return leaves the acceptor there, holding the mutex.
     */
    method StartDevice(node: Node, deviceStarts: bool)
      requires Valid() && nodes == [] && HasNode(place) && place.node == node
      modifies this, info.Keys`next
      ensures Valid()
      ensures State() == ServerSpec.StartDevice(old(State()), NewcomerClient(old(place)), deviceStarts)
      ensures info.Keys + Newcomer(place) == old(info.Keys + Newcomer(place))
    {
      hide Linked, InfoTrue;
      var returned := JoinThread();
      if !returned {
        place := AtJoin(node, place.what);
      } else if deviceStarts {
        TurnOn(node);
        Link(node);
      } else {
        place := AtTurnAway(node, place.what);
      }
    }

    /** The mutex section of `handle_new_client`, up to the wait if there is one. */
    method Register(node: Node, deviceStarts: bool)
      requires Valid() && place.AtRegister? && place.node == node
      modifies this, info.Keys`next
      ensures Valid()
      ensures State() == RegisterClient(old(State()), NewcomerClient(old(place)), deviceStarts)
      ensures info.Keys + Newcomer(place) == old(info.Keys + Newcomer(place))
    {
      Cleanup();
      if tcpNodes == null {
        currentBandFreq := node.bandFreq;
        if sdrStopped {
          StartDevice(node, deviceStarts);
        } else {
          place := AtWait(node, place.what);
        }
      } else if currentBandFreq != 0 && currentBandFreq != node.bandFreq {
        place := AtTurnAway(node, place.what);
      } else {
        Link(node);
      }
    }

    /** The same section after its wait: nothing was linked meanwhile. */
    method Resume(node: Node, deviceStarts: bool)
      requires Valid() && WorkersOk(State()) && Enabled(State(), ServerSpec.Resume(deviceStarts))
      requires State().clients == [] && place.node == node
      modifies this, info.Keys`next
      ensures Valid() && State() == Step(old(State()), ServerSpec.Resume(deviceStarts))
      ensures info.Keys + Newcomer(place) == old(info.Keys + Newcomer(place))
    {
      assert |nodes| == |State().clients|;
      StartDevice(node, deviceStarts);
    }

    /** A linked client stops running and its worker ends as `what` says. */
    method StopLinked(node: Node, ghost i: nat, ghost what: Info)
      requires Valid() && i < |nodes| && nodes[i] == node && !what.running
      modifies this`info, node`isRunning
      ensures Valid()
      ensures State() == old(State()).(clients :=
                old(State()).clients[i := Client(node.id, node.bandFreq, false, what.worker)])
      ensures info.Keys == old(info.Keys) && nodes == old(nodes)
    {
      ClientChanged(nodes, info, i, what);
      node.isRunning := false;
      info := info[node := what];
    }

    /** The same for the client the acceptor holds. */
    method StopNewcomer(node: Node, ghost what: Info)
      requires Valid() && HasNode(place) && place.node == node && !what.running
      modifies this`place, node`isRunning
      ensures Valid()
      ensures State() == old(State()).(acceptor := WithClient(old(State()).acceptor,
                                                              Client(node.id, node.bandFreq, false, what.worker)))
      ensures HasNode(place) && place.node == old(place).node
    {
      node.isRunning := false;
      place := WithInfo(place, what);
    }

    /** When no linked client is running a shutdown thread is created, once. */
    method StopDeviceIfUnused()
      requires Valid()
      modifies this`thread, this`shutdownThreadCreated
      ensures Valid() && State() == AfterExit(old(State()))
    {
      var found := SomeoneRuns();
      if !found && !shutdownThreadCreated {
        thread := Stopping;
        shutdownThreadCreated := true;
      }
    }

    /** The exit section of `tcp_worker` for a linked client: its worker is disconnected. */
    method Exit(node: Node, ghost i: nat)
      requires Valid() && i < |nodes| && nodes[i] == node && ClientOk(State().clients[i])
      modifies this`info, this`thread, this`shutdownThreadCreated, node`isRunning
      ensures Valid() && State() == ClientLeaves(old(State()), i)
      ensures info.Keys == old(info.Keys) && nodes == old(nodes)
    {
      ghost var c := Stopped(State().clients[i]);
      StopLinked(node, i, Info(false, c.worker));
      StopDeviceIfUnused();
    }

    /** The same section for the client the acceptor holds. */
    method ExitNewcomer(node: Node)
      requires Valid() && HasNode(place) && place.node == node && ClientOk(State().acceptor.client)
      modifies this`place, this`thread, this`shutdownThreadCreated, node`isRunning
      ensures Valid() && State() == NewcomerLeaves(old(State()))
      ensures HasNode(place) && place.node == old(place).node
    {
      ghost var c := Stopped(State().acceptor.client);
      StopNewcomer(node, Info(false, c.worker));
      StopDeviceIfUnused();
    }

    /** A linked client's worker has become `worker`. */
    ghost method NoteWorker(node: Node, k: nat, worker: W.Worker)
      requires Valid() && k < |nodes| && nodes[k] == node
      modifies this`info
      ensures Valid() && nodes == old(nodes) && info.Keys == old(info.Keys)
      ensures State() == old(State()).(clients := old(State()).clients[k := old(State()).clients[k].(worker := worker)])
    {
      var what := Info(info[node].running, worker);
      ClientChanged(nodes, info, k, what);
      info := info[node := what];
    }

    /** And the worker of the client the acceptor holds. */
    ghost method NoteNewcomer(worker: W.Worker)
      requires Valid() && HasNode(place)
      modifies this`place
      ensures Valid() && HasNode(place) && place.node == old(place).node
      ensures State() == old(State()).(acceptor := WithClient(old(State()).acceptor,
                                                              old(State()).acceptor.client.(worker := worker)))
    {
      place := WithInfo(place, Info(place.what.running, worker));
    }

    /** `shutdown_callback`, before the mutex. */
    method StopDevice()
      requires Valid() && WorkersOk(State()) && Enabled(State(), ServerSpec.StopDevice)
      modifies this`thread, this`device
      ensures Valid() && State() == Step(old(State()), ServerSpec.StopDevice)
    {
      hide WorkersOk, ClientsOf, Linked, InfoTrue;
      thread, device := Releasing, Off;
    }

    /** `shutdown_callback`, its mutex section. */
    method Release()
      requires Valid() && WorkersOk(State()) && Enabled(State(), ServerSpec.Release)
      modifies this`thread, this`sdrStopped
      ensures Valid() && State() == Step(old(State()), ServerSpec.Release)
    {
      hide WorkersOk, ClientsOf, Linked, InfoTrue;
      sdrStopped := true;
      thread := Finished;
    }

    /** The thread of a client that was turned away has ended. */
    method Dismiss()
      requires Valid() && WorkersOk(State()) && Enabled(State(), ServerSpec.Dismiss)
      modifies this`place
      ensures Valid() && State() == Step(old(State()), ServerSpec.Dismiss)
    {
      hide WorkersOk, ClientsOf, Linked, InfoTrue;
      place := AtAccept;
    }

    /** `accept` fails and the acceptor begins to drain. */
    method Shutdown()
      requires Valid() && WorkersOk(State()) && Enabled(State(), ServerSpec.Shutdown)
      modifies this`place
      ensures Valid() && State() == Step(old(State()), ServerSpec.Shutdown)
    {
      hide WorkersOk, ClientsOf, Linked, InfoTrue;
      place := AtDrain;
    }

    /** Takes the first node out of the list. */
    method UnlinkHead()
      requires Valid() && nodes != []
      modifies this`tcpNodes, this`nodes
      ensures Valid() && State() == old(State()).(clients := old(State()).clients[1..])
    {
      tcpNodes := tcpNodes.next;
      ghost var rest := nodes[1..];
      assert ClientsOf(rest, info) == ClientsOf(nodes, info)[1..];
      nodes := rest;
    }

    /** The final drain: the first node's thread has ended and the node is unlinked. */
    method DrainHead()
      requires Valid() && WorkersOk(State()) && Enabled(State(), ServerSpec.DrainHead)
      modifies this`tcpNodes, this`nodes
      ensures Valid() && State() == Step(old(State()), ServerSpec.DrainHead)
    {
      assert State().clients != [] ==> nodes != [];
      UnlinkHead();
    }

    /** The end of the drain, once the device has stopped. */
    method DrainEnd()
      requires Valid() && WorkersOk(State()) && Enabled(State(), ServerSpec.DrainEnd)
      modifies this`thread, this`shutdownThreadCreated, this`place
      ensures Valid() && State() == Step(old(State()), ServerSpec.DrainEnd)
    {
      hide WorkersOk, ClientsOf, Linked, InfoTrue;
      var returned := JoinThread();
      place := if returned then AtEnd else AtLastJoin;
    }

    /** One of these steps, none of which anybody sees. */
    method Quiet(e: Event)
      requires Valid() && WorkersOk(State()) && Enabled(State(), e)
      requires e.Dismiss? || e.StopDevice? || e.Release? || e.Shutdown? || e.DrainHead? || e.DrainEnd?
      modifies this
      ensures Valid() && State() == Step(old(State()), e)
      ensures info == old(info) && Newcomer(place) <= Newcomer(old(place))
    {
      hide WorkersOk, Linked, InfoTrue;
      match e
      case Dismiss => Dismiss();
      case StopDevice => StopDevice();
      case Release => Release();
      case Shutdown => Shutdown();
      case DrainHead => DrainHead();
      case DrainEnd => DrainEnd();
    }
  }

  /** Unlinking nodes is unlinking clients. */
  lemma {:induction false} KeptClients(s: seq<Node>, info: map<Node, Info>)
    requires forall i :: 0 <= i < |s| ==> s[i] in info
    ensures ClientsOf(RunningNodes(s, info), info) == Running(ClientsOf(s, info))
  {
    if s == [] {
    } else {
      var front, last := s[..|s| - 1], s[|s| - 1];
      KeptClients(front, info);
      RunningJoins(ClientsOf(front, info), [ClientOf(last, info)]);
      assert ClientsOf(s, info) == ClientsOf(front, info) + [ClientOf(last, info)];
      var kept := RunningNodes(front, info);
      if info[last].running {
        assert ClientsOf(kept + [last], info) == ClientsOf(kept, info) + [ClientOf(last, info)];
      }
    }
  }

  lemma ClientAdded(s: seq<Node>, info: map<Node, Info>, node: Node, what: Info)
    requires (forall i :: 0 <= i < |s| ==> s[i] in info) && node !in info
    ensures ClientsOf(s + [node], info[node := what])
            == ClientsOf(s, info) + [Client(node.id, node.bandFreq, what.running, what.worker)]
  {
  }

  lemma ClientChanged(s: seq<Node>, info: map<Node, Info>, i: nat, what: Info)
    requires (forall i :: 0 <= i < |s| ==> s[i] in info) && NoDuplicates(s) && i < |s|
    ensures ClientsOf(s, info[s[i] := what])
            == ClientsOf(s, info)[i := Client(s[i].id, s[i].bandFreq, what.running, what.worker)]
  {
  }

  function Without<T>(s: seq<T>, k: nat): seq<T>
    requires k < |s|
  {
    s[..k] + s[k + 1..]
  }

  /** Of `all`, the first `m` have been looked at; the list is now `s`, with `k` of them kept. */
  ghost predicate CleanedUp(all: seq<Node>, m: nat, s: seq<Node>, k: nat, info: map<Node, Info>) {
    && (forall i :: 0 <= i < |all| ==> all[i] in info)
    && k <= |s| && m <= |all|
    && s[..k] == RunningNodes(all[..m], info) && s[k..] == all[m..]
    && NoDuplicates(s) && (forall i :: 0 <= i < |s| ==> s[i] in info)
  }

  /** Keeping a running node, or dropping another, looks at one more. */
  lemma OneMore(all: seq<Node>, m: nat, s: seq<Node>, k: nat, info: map<Node, Info>)
    requires CleanedUp(all, m, s, k, info) && k < |s|
    ensures m < |all| && s[k] == all[m]
    ensures info[s[k]].running ==> CleanedUp(all, m + 1, s, k + 1, info)
    ensures !info[s[k]].running ==> CleanedUp(all, m + 1, Without(s, k), k, info)
  {
    assert s[k..][0] == s[k] && s[k..][1..] == s[k + 1..] && all[m..][1..] == all[m + 1..];
    assert all[..m + 1][..m] == all[..m];
    assert s[..k + 1] == s[..k] + [s[k]];
    var t := Without(s, k);
    assert t[..k] == s[..k] && t[k..] == s[k + 1..];
  }

  lemma ScanStarts(all: seq<Node>, info: map<Node, Info>)
    requires NoDuplicates(all) && forall i :: 0 <= i < |all| ==> all[i] in info
    ensures CleanedUp(all, 0, all, 0, info)
  {
  }

  lemma InList(all: seq<Node>, m: nat, s: seq<Node>, k: nat, info: map<Node, Info>)
    requires CleanedUp(all, m, s, k, info) && k < |s|
    ensures m < |all| && s[k] == all[m] && s[k] in info && (k > 0 ==> s[k - 1] in info)
  {
    assert s[k..][0] == all[m..][0];
  }

  lemma AllDone(all: seq<Node>, m: nat, s: seq<Node>, k: nat, info: map<Node, Info>)
    requires CleanedUp(all, m, s, k, info) && k == |s|
    ensures s == RunningNodes(all, info) && NoDuplicates(s) && forall i :: 0 <= i < |s| ==> s[i] in info
  {
    assert s[k..] == [] && all[m..] == [] && all[..m] == all && s[..k] == s;
  }
}
