/**
 The block queue on the heap: pre-allocated nodes in a free list and a filled list, and one
 detached node. Each method is one mutex section.
 */
module BlockQueue {
  import opened MachineInts
  import opened Wrappers
  import QueueSpec

  class Node {
    const buffer: array<uint8>
    var len: nat
    var next: Node?

    constructor (bufferSize: nat)
      ensures fresh(buffer) && buffer.Length == bufferSize
      ensures len == 0 && next == null
    {
      buffer := new uint8[bufferSize](_ => 0);
      len, next := 0, null;
    }
  }

  /** Where a node is: in which list and, counting on from node to node, at which position. */
  datatype Spot = Free(rank: int) | Filled(rank: int) | Detached

  /** A null-terminated list with the nodes of `s`, from `first` to `last`. */
  ghost predicate IsList(first: Node?, last: Node?, s: seq<Node>)
    reads s`next
  {
    && (if s == [] then first == null && last == null else first == s[0] && last == s[|s| - 1])
    && (forall i {:trigger s[i].next} :: 0 <= i < |s| ==> s[i].next == if i < |s| - 1 then s[i + 1] else null)
  }

  ghost predicate AllFree(s: seq<Node>, base: int, spot: map<Node, Spot>, nodes: set<Node>) {
    forall i :: 0 <= i < |s| ==> s[i] in nodes && s[i] in spot && spot[s[i]] == Free(base + i)
  }

  ghost predicate AllFilled(s: seq<Node>, base: int, spot: map<Node, Spot>, nodes: set<Node>) {
    forall i :: 0 <= i < |s| ==> s[i] in nodes && s[i] in spot && spot[s[i]] == Filled(base + i)
  }

  /** The blocks in a list of nodes. */
  ghost function BlocksOf(s: seq<Node>, contents: map<Node, QueueSpec.Block>): (b: seq<QueueSpec.Block>)
    requires forall i :: 0 <= i < |s| ==> s[i] in contents
    ensures |b| == |s|
  {
    seq(|s|, i requires 0 <= i < |s| => contents[s[i]])
  }

  class Queue {
    const bufferSize: nat
    var firstFreeNode: Node?
    var lastFreeNode: Node?
    var firstFilledNode: Node?
    var lastFilledNode: Node?
    var detachedNode: Node?
    var poisonPill: int

    /** The nodes of the two lists in order, with the position of the first. */
    ghost var free: seq<Node>
    ghost var freeBase: int
    ghost var filled: seq<Node>
    ghost var filledBase: int
    /** Where each node is, and the block it holds. */
    ghost var spot: map<Node, Spot>
    ghost var contents: map<Node, QueueSpec.Block>
    /** All nodes ever created, and the node each buffer belongs to. */
    ghost const nodes: set<Node>
    ghost const buffers: set<array<uint8>>
    ghost const owner: map<array<uint8>, Node>

    /**
     Free list, filled list and detached node are disjoint and together as many as were created;
     the lists are acyclic with correct ends.
     */
    ghost predicate Shape()
      reads this`firstFreeNode, this`lastFreeNode, this`firstFilledNode, this`lastFilledNode, this`detachedNode
      reads this`free, this`freeBase, this`filled, this`filledBase, this`spot, nodes`next
    {
      && AllFree(free, freeBase, spot, nodes) && AllFilled(filled, filledBase, spot, nodes)
      && IsList(firstFreeNode, lastFreeNode, free)
      && IsList(firstFilledNode, lastFilledNode, filled)
      && (detachedNode != null ==>
            && detachedNode in nodes && detachedNode in spot && spot[detachedNode] == Detached
            && detachedNode.next == null)
      && |nodes| == |free| + |filled| + (if detachedNode == null then 0 else 1)
    }

    /** Every node has a buffer of its own. */
    ghost predicate BuffersApart() {
      forall n :: n in nodes ==>
        n.buffer in buffers && n.buffer.Length == bufferSize && n.buffer in owner && owner[n.buffer] == n
    }

    /** Every node's first `len` bytes are the block it holds. */
    ghost predicate BytesStored()
      requires BuffersApart()
      reads this`contents, nodes`len, buffers
    {
      && (forall n :: n in nodes ==> n in contents && |contents[n]| == n.len <= bufferSize)
      && (forall n, k :: n in nodes && 0 <= k < n.len ==> n.buffer[k] == contents[n][k])
    }

    ghost predicate Valid()
      reads this, nodes, buffers
    {
      Shape() && BuffersApart() && BytesStored()
    }

    /** The abstract queue. */
    ghost function State(): QueueSpec.Queue
      requires Valid()
      reads this, nodes, buffers
    {
      QueueSpec.Queue(|nodes|, BlocksOf(filled, contents),
                      if detachedNode == null then None else Some(contents[detachedNode]), poisonPill == 1)
    }

    ghost function Repr(): set<object> {
      {this} + nodes + buffers
    }

    /** Free list, filled list and detached node in one sequence. */
    ghost function All(): seq<Node>
      reads this
    {
      free + filled + (if detachedNode == null then [] else [detachedNode])
    }

    /** Every node created is in exactly one place. */
    lemma NodesConserved()
      requires Shape()
      ensures forall i, j :: 0 <= i < j < |All()| ==> All()[i] != All()[j]
      ensures forall n :: n in All() <==> n in nodes
    {
      DistinctCount(All());
      SubsetFull((set n | n in All()), nodes);
    }

    /** `create_queue`: all nodes in the free list, chained in order of creation. */
    constructor (bufferSize: nat, queueSize: nat)
      ensures Valid() && State() == QueueSpec.Initial(queueSize)
      ensures this.bufferSize == bufferSize && |nodes| == queueSize && fresh(nodes) && fresh(buffers)
    {
      var firstNode, lastNode;
      ghost var created, owners, spots;
      firstNode, lastNode, created, owners, spots := CreateNodes(bufferSize, queueSize);
      this.bufferSize := bufferSize;
      firstFreeNode, lastFreeNode := firstNode, lastNode;
      firstFilledNode, lastFilledNode := null, null;
      detachedNode := null;
      poisonPill := 0;
      free, freeBase, filled, filledBase, spot := created, 0, [], 0, spots;
      contents := map n | n in created :: [];
      nodes := set n | n in created;
      owner := owners;
      buffers := owners.Keys;
      new;
      DistinctCount(created);
      assert IsList(firstFilledNode, lastFilledNode, filled) && AllFilled(filled, filledBase, spot, nodes);
      hide IsList, AllFree, AllFilled;
      assert Shape();
      assert BuffersApart() && BytesStored();
    }

    /** Unlinks the first free node. */
    method PopFree() returns (toFill: Node)
      requires AllFree(free, freeBase, spot, nodes) && IsList(firstFreeNode, lastFreeNode, free)
      requires firstFreeNode != null
      modifies this`firstFreeNode, this`lastFreeNode, this`free, this`freeBase, firstFreeNode`next
      ensures AllFree(free, freeBase, spot, nodes) && IsList(firstFreeNode, lastFreeNode, free)
      ensures toFill == old(free)[0] && free == old(free)[1..] && toFill.next == null
    {
      toFill := firstFreeNode;
      firstFreeNode := firstFreeNode.next;
      toFill.next := null;
      if firstFreeNode == null {
        lastFreeNode := null;
      }
      free, freeBase := free[1..], freeBase + 1;
    }

    /** Links a node behind the last filled one. */
    method PushFilled(toFill: Node)
      requires AllFilled(filled, filledBase, spot, nodes) && IsList(firstFilledNode, lastFilledNode, filled)
      requires toFill in nodes && toFill in spot && !spot[toFill].Filled? && toFill.next == null
      modifies this`firstFilledNode, this`lastFilledNode, this`filled, this`spot
      modifies (if lastFilledNode == null then {} else {lastFilledNode})`next
      ensures AllFilled(filled, filledBase, spot, nodes) && IsList(firstFilledNode, lastFilledNode, filled)
      ensures filled == old(filled) + [toFill]
      ensures spot == old(spot)[toFill := Filled(filledBase + |old(filled)|)]
    {
      if lastFilledNode == null {
        firstFilledNode := toFill;
      } else {
        lastFilledNode.next := toFill;
      }
      lastFilledNode := toFill;
      spot := spot[toFill := Filled(filledBase + |filled|)];
      filled := filled + [toFill];
    }

    /** Moves the first free node to the end of the filled list. */
    method MoveFreeToFilled() returns (toFill: Node)
      requires Shape() && firstFreeNode != null
      modifies this`firstFreeNode, this`lastFreeNode, this`firstFilledNode, this`lastFilledNode
      modifies this`free, this`freeBase, this`filled, this`spot, nodes`next
      ensures Shape() && toFill == old(free)[0]
      ensures free == old(free)[1..] && filled == old(filled) + [toFill]
    {
      toFill := PopFree();
      PushFilled(toFill);
    }

    /** memcpy into the node's own buffer, and its length; no other node's bytes change. */
    method CopyIn(node: Node, block: seq<uint8>)
      requires BuffersApart() && BytesStored() && node in nodes && |block| <= bufferSize
      modifies node`len, node.buffer, this`contents
      ensures BytesStored() && contents == old(contents)[node := block]
    {
      forall i | 0 <= i < |block| {
        node.buffer[i] := block[i];
      }
      node.len := |block|;
      contents := contents[node := block];
      assert forall n :: n in nodes && n != node ==> owner[n.buffer] != node;
    }

    method Fill(node: Node, block: seq<uint8>)
      requires Valid() && filled != [] && node == filled[|filled| - 1] && |block| <= bufferSize
      modifies node`len, node.buffer, this`contents
      ensures Valid()
      ensures var n := |filled| - 1;
              State() == old(State()).(pending := old(State()).pending[..n] + [block])
    {
      LastReplaced(filled, filledBase, spot, nodes, contents, block);
      CopyIn(node, block);
    }

    /** Room left: the first free node becomes the last filled one, still holding an older block. */
    method Append() returns (toFill: Node)
      requires Valid() && firstFreeNode != null
      modifies this`firstFreeNode, this`lastFreeNode, this`firstFilledNode, this`lastFilledNode
      modifies this`free, this`freeBase, this`filled, this`spot, nodes`next
      ensures Valid() && filled != [] && toFill == filled[|filled| - 1]
      ensures toFill in nodes && toFill in contents && toFill.buffer in buffers
      ensures filled == old(filled) + [toFill]
      ensures State() == old(State()).(pending := old(State()).pending + [contents[toFill]])
    {
      toFill := MoveFreeToFilled();
    }

    /** A free node, appended to the filled list, takes the block. */
    method PutFree(block: seq<uint8>)
      requires Valid() && firstFreeNode != null && |block| <= bufferSize
      modifies this, nodes, buffers
      ensures Valid() && State() == old(State()).(pending := old(State()).pending + [block])
      ensures detachedNode == old(detachedNode)
    {
      hide Shape, BuffersApart, BytesStored;
      ghost var pending := State().pending;
      var toFill := Append();
      ghost var stale := contents[toFill];
      Fill(toFill, block);
      assert (pending + [stale])[..|pending|] == pending;
    }

    /** Without a free node the last filled one takes the block. */
    method PutOver(block: seq<uint8>)
      requires Valid() && filled != [] && |block| <= bufferSize
      modifies this, nodes, buffers
      ensures Valid() && detachedNode == old(detachedNode)
      ensures var n := |old(State()).pending| - 1;
              n >= 0 && State() == old(State()).(pending := old(State()).pending[..n] + [block])
    {
      var toFill := lastFilledNode;
      Fill(toFill, block);
    }

    /** Used blocks are counted by the lists; there is a free node exactly when not all are used. */
    lemma FreeIffUnused()
      requires Valid()
      ensures QueueSpec.Valid(State()) && |filled| == |State().pending|
      ensures firstFreeNode == null <==> QueueSpec.Used(State()) == |nodes|
    {
    }

    /**
     `queue_put`: the block goes into the first free node, appended to the filled list, or over the
     last filled one when no node is free.
     */
    method Put(block: seq<uint8>)
      requires Valid() && QueueSpec.CanPut(State()) && |block| <= bufferSize
      modifies this, nodes, buffers
      ensures Valid() && QueueSpec.Valid(old(State())) && State() == QueueSpec.PutBlock(old(State()), block)
      ensures detachedNode == old(detachedNode)
      ensures var before := old(State().pending);
              if |before| + (if old(detachedNode) == null then 0 else 1) < |nodes|
              then State().pending == before + [block]
              else |before| > 0 && State().pending == before[..|before| - 1] + [block]
    {
      FreeIffUnused();
      hide Shape, BuffersApart, BytesStored;
      if firstFreeNode == null {
        PutOver(block);
      } else {
        PutFree(block);
      }
    }

    /**
     One pass of `take_buffer_for_processing` under the mutex. `Blocked` is the wait on the
     condition; the caller is woken and passes again.
     */
    method Take() returns (result: QueueSpec.Taken)
      requires Valid() && detachedNode == null
      modifies this, nodes
      ensures Valid()
      ensures result == QueueSpec.TakeResult(old(State())) && State() == QueueSpec.TakeBlock(old(State()))
      ensures var before := old(State().pending);
              if before == [] then State() == old(State())
              else result == QueueSpec.Got(before[0]) && State().pending == before[1..] && DetachedBytes() == before[0]
    {
      if poisonPill == 1 && firstFilledNode == null {
        return QueueSpec.Closed;
      }
      if firstFilledNode == null {
        return QueueSpec.Blocked;
      }
      result := TakeFirst();
    }

    /** The first filled node becomes the detached one. */
    method DetachFirst()
      requires Valid() && detachedNode == null && firstFilledNode != null
      modifies this`firstFilledNode, this`lastFilledNode, this`detachedNode, this`filled, this`filledBase
      modifies this`spot, nodes`next
      ensures Valid() && detachedNode != null && old(State()).pending != []
      ensures detachedNode.len <= detachedNode.buffer.Length
      ensures State() == QueueSpec.TakeBlock(old(State()))
    {
      ghost var blocks := BlocksOf(filled, contents);
      Detach();
      assert BlocksOf(filled, contents) == blocks[1..];
    }

    /** There is a filled node: it is detached and its bytes are handed out. */
    method TakeFirst() returns (result: QueueSpec.Taken)
      requires Valid() && detachedNode == null && firstFilledNode != null
      modifies this, nodes
      ensures Valid() && poisonPill == old(poisonPill)
      ensures old(State()).pending != [] && result == QueueSpec.Got(old(State()).pending[0])
      ensures State() == QueueSpec.TakeBlock(old(State()))
    {
      hide Shape, BuffersApart, BytesStored;
      DetachFirst();
      assert DetachedBytes() == State().detached.value;
      result := QueueSpec.Got(detachedNode.buffer[..detachedNode.len]);
    }

    /** Unlinks the first filled node. */
    method PopFilled() returns (node: Node)
      requires AllFilled(filled, filledBase, spot, nodes) && IsList(firstFilledNode, lastFilledNode, filled)
      requires firstFilledNode != null
      modifies this`firstFilledNode, this`lastFilledNode, this`filled, this`filledBase, firstFilledNode`next
      ensures AllFilled(filled, filledBase, spot, nodes) && IsList(firstFilledNode, lastFilledNode, filled)
      ensures node == old(filled)[0] && filled == old(filled)[1..] && filledBase == old(filledBase) + 1
      ensures node.next == null
    {
      node := firstFilledNode;
      firstFilledNode := firstFilledNode.next;
      node.next := null;
      if firstFilledNode == null {
        lastFilledNode := null;
      }
      filled, filledBase := filled[1..], filledBase + 1;
    }

    /** Takes the first filled node aside. */
    method Detach()
      requires Shape() && firstFilledNode != null && detachedNode == null
      modifies this`firstFilledNode, this`lastFilledNode, this`detachedNode, this`filled, this`filledBase
      modifies this`spot, nodes`next
      ensures Shape() && detachedNode == old(filled)[0] && filled == old(filled)[1..]
    {
      detachedNode := PopFilled();
      spot := spot[detachedNode := Detached];
    }

    /** Links a node behind the last free one. */
    method PushFree(node: Node)
      requires AllFree(free, freeBase, spot, nodes) && IsList(firstFreeNode, lastFreeNode, free)
      requires node in nodes && node in spot && !spot[node].Free? && node.next == null
      modifies this`firstFreeNode, this`lastFreeNode, this`free, this`spot
      modifies (if lastFreeNode == null then {} else {lastFreeNode})`next
      ensures AllFree(free, freeBase, spot, nodes) && IsList(firstFreeNode, lastFreeNode, free)
      ensures free == old(free) + [node]
      ensures spot == old(spot)[node := Free(freeBase + |old(free)|)]
    {
      if lastFreeNode == null {
        firstFreeNode := node;
      } else {
        lastFreeNode.next := node;
      }
      lastFreeNode := node;
      spot := spot[node := Free(freeBase + |free|)];
      free := free + [node];
    }

    /** Links the detached node behind the last free one. */
    method Reattach()
      requires Shape() && detachedNode != null
      modifies this`firstFreeNode, this`lastFreeNode, this`detachedNode, this`free
      modifies this`spot, nodes`next
      ensures Shape() && detachedNode == null && free == old(free) + [old(detachedNode)]
    {
      PushFree(detachedNode);
      detachedNode := null;
    }

    /** `complete_buffer_processing`: the detached node goes to the end of the free list. */
    method Complete()
      requires Valid() && detachedNode != null
      modifies this, nodes
      ensures Valid() && State() == QueueSpec.CompleteBlock(old(State()))
    {
      Reattach();
    }

    /** What the consumer reads through its pointer, outside any mutex section. */
    ghost function DetachedBytes(): seq<uint8>
      requires Valid() && detachedNode != null
      reads this, nodes, buffers
      ensures DetachedBytes() == State().detached.value
    {
      detachedNode.buffer[..detachedNode.len]
    }

    /** `interrupt_waiting_the_data`. */
    method Interrupt()
      requires Valid()
      modifies this`poisonPill
      ensures Valid() && State() == old(State()).(poisoned := true)
    {
      poisonPill := 1;
    }

    /**
     `destroy_queue`: the nodes released, in order. Every node created is released exactly once,
     and no list is followed through a released node.
     */
    method Destroy() returns (released: seq<Node>)
      requires Valid()
      ensures forall i, j :: 0 <= i < j < |released| ==> released[i] != released[j]
      ensures forall n :: n in released <==> n in nodes
    {
      var freeNodes := DestroyNodes(firstFreeNode, lastFreeNode, free);
      var filledNodes := DestroyNodes(firstFilledNode, lastFilledNode, filled);
      released := freeNodes + filledNodes;
      if detachedNode != null {
        released := released + [detachedNode];
      }
      NodesConserved();
    }
  }

  /** Overwriting the last filled node replaces the last block and no other. */
  lemma LastReplaced(s: seq<Node>, base: int, spot: map<Node, Spot>, nodes: set<Node>,
                     contents: map<Node, QueueSpec.Block>, block: QueueSpec.Block)
    requires s != [] && AllFilled(s, base, spot, nodes) && forall i :: 0 <= i < |s| ==> s[i] in contents
    ensures var n := |s| - 1;
            BlocksOf(s, contents[s[n] := block]) == BlocksOf(s[..n], contents) + [block]
            && BlocksOf(s[..n], contents) == BlocksOf(s, contents)[..n]
  {
    var n := |s| - 1;
    assert forall i :: 0 <= i < n ==> spot[s[i]] != spot[s[n]];
  }

  /** The chain of `queueSize` new nodes that the free list starts as. */
  method CreateNodes(bufferSize: nat, queueSize: nat)
    returns (firstNode: Node?, lastNode: Node?, ghost created: seq<Node>,
             ghost owner: map<array<uint8>, Node>, ghost spot: map<Node, Spot>)
    ensures |created| == queueSize && fresh(created) && IsList(firstNode, lastNode, created)
    ensures fresh(owner.Keys) && AllFree(created, 0, spot, set n | n in created)
    ensures forall n :: n in created ==>
              n.len == 0 && n.buffer.Length == bufferSize && n.buffer in owner && owner[n.buffer] == n
  {
    firstNode, lastNode, created, owner, spot := null, null, [], map[], map[];
    for i := 0 to queueSize
      invariant |created| == i && fresh(created) && fresh(owner.Keys)
      invariant IsList(firstNode, lastNode, created)
      invariant AllFree(created, 0, spot, set n | n in created)
      invariant forall n :: n in created ==>
                  n.len == 0 && n.buffer.Length == bufferSize && n.buffer in owner && owner[n.buffer] == n
    {
      var cur := new Node(bufferSize);
      if lastNode == null {
        firstNode := cur;
      } else {
        lastNode.next := cur;
      }
      lastNode := cur;
      created := created + [cur];
      owner := owner[cur.buffer := cur];
      spot := spot[cur := Free(i)];
    }
  }

  /** `destroy_nodes`: the successor is read before its node is released. */
  method DestroyNodes(first: Node?, ghost last: Node?, ghost s: seq<Node>) returns (released: seq<Node>)
    requires IsList(first, last, s)
    ensures released == s
  {
    released := [];
    var curNode := first;
    while curNode != null
      invariant |released| <= |s| && released == s[..|released|]
      invariant curNode == if |released| < |s| then s[|released|] else null
      decreases |s| - |released|
    {
      var next := curNode.next;
      released := released + [curNode];
      curNode := next;
    }
  }

  lemma {:induction false} SubsetFull(a: set<Node>, b: set<Node>)
    requires a <= b && |a| == |b|
    ensures a == b
  {
    if a != b {
      var x :| x in b && x !in a;
      SubsetSize(a, b - {x});
    }
  }

  lemma {:induction false} SubsetSize(a: set<Node>, b: set<Node>)
    requires a <= b
    ensures |a| <= |b|
  {
    if x :| x in a {
      SubsetSize(a - {x}, b - {x});
    }
  }

  lemma {:induction false} DistinctCount(s: seq<Node>)
    requires forall i, j :: 0 <= i < j < |s| ==> s[i] != s[j]
    ensures |set n | n in s| == |s|
  {
    if s == [] {
    } else {
      var front := s[..|s| - 1];
      DistinctCount(front);
      assert (set n | n in s) == (set n | n in front) + {s[|s| - 1]};
    }
  }
}
