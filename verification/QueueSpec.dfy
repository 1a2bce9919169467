/**
 The block queue as a value: a bounded sequence of pending blocks whose last block is overwritten
 when no block is free, and at most one block detached for the consumer.
 */
module QueueSpec {
  import opened MachineInts
  import opened Wrappers

  type Block = seq<uint8>

  datatype Queue = Queue(size: nat, pending: seq<Block>, detached: Option<Block>, poisoned: bool)

  /** What `take_buffer_for_processing` comes back with; Blocked stands for a wait that goes on. */
  datatype Taken = Blocked | Closed | Got(block: Block)

  datatype Event = Put(block: Block) | Take | Complete | Interrupt

  function Initial(size: nat): Queue {
    Queue(size, [], None, false)
  }

  /** Blocks not in the free list. */
  function Used(q: Queue): nat {
    |q.pending| + if q.detached.Some? then 1 else 0
  }

  predicate Valid(q: Queue) {
    Used(q) <= q.size
  }

  /** A put needs a free block or a pending one to overwrite. */
  predicate CanPut(q: Queue) {
    (if q.detached.Some? then 1 else 0) < q.size
  }

  function PutBlock(q: Queue, block: Block): Queue
    requires Valid(q) && CanPut(q)
  {
    if Used(q) < q.size then
      q.(pending := q.pending + [block])
    else
      q.(pending := q.pending[..|q.pending| - 1] + [block])
  }

  function TakeResult(q: Queue): Taken {
    if q.pending != [] then Got(q.pending[0]) else if q.poisoned then Closed else Blocked
  }

  function TakeBlock(q: Queue): Queue {
    if q.pending != [] then q.(pending := q.pending[1..], detached := Some(q.pending[0])) else q
  }

  function CompleteBlock(q: Queue): Queue {
    q.(detached := None)
  }

  /** One consumer alternating take and complete. */
  predicate Enabled(q: Queue, e: Event) {
    match e
    case Put(_) => CanPut(q)
    case Take => q.detached.None?
    case Complete => q.detached.Some?
    case Interrupt => true
  }

  function Step(q: Queue, e: Event): Queue
    requires Valid(q) && Enabled(q, e)
  {
    match e
    case Put(block) => PutBlock(q, block)
    case Take => TakeBlock(q)
    case Complete => CompleteBlock(q)
    case Interrupt => q.(poisoned := true)
  }

  /** With two blocks or more a put is possible whatever the consumer is doing. */
  lemma PutAlwaysPossible(size: nat)
    ensures (forall q: Queue :: Valid(q) && q.size == size ==> CanPut(q)) <==> size >= 2
  {
    if size == 1 {
      var q := Queue(1, [], Some([]), false);
      assert Valid(q) && !CanPut(q);
    } else if size == 0 {
      var q := Initial(0);
      assert Valid(q) && !CanPut(q);
    }
  }

  /** Every block is pending or detached. */
  predicate Full(q: Queue) {
    q.size <= |q.pending| + (if q.detached == None then 0 else 1)
  }

  /** A put appends its block, unless every block is in use; only then is the last pending one overwritten. */
  lemma PutOutcome(q: Queue, block: Block)
    requires Valid(q) && CanPut(q)
    ensures var q', n := Step(q, Put(block)), |q.pending|;
            && q'.size == q.size && q'.detached == q.detached && q'.poisoned == q.poisoned
            && (!Full(q) ==> q'.pending == q.pending + [block])
            && (Full(q) ==> n > 0 && q'.pending == q.pending[..n - 1] + [block])
  {
  }

  /** A take hands out the oldest pending block, whatever else is going on. */
  lemma TakeOutcome(q: Queue)
    ensures q.pending != [] ==>
              TakeResult(q) == Got(q.pending[0])
              && TakeBlock(q) == q.(pending := q.pending[1..], detached := Some(q.pending[0]))
    ensures q.pending == [] ==> TakeBlock(q) == q && TakeResult(q) == if q.poisoned then Closed else Blocked
  {
  }

  // ---- History of a run ----

  /** A queue with the blocks put so far and, by put number, what became of each of them. */
  datatype Trace = Trace(queue: Queue, puts: seq<Block>, delivered: seq<nat>, waiting: seq<nat>, lost: seq<nat>)

  function Start(size: nat): Trace {
    Trace(Initial(size), [], [], [], [])
  }

  function Log(t: Trace, e: Event): Trace
    requires Valid(t.queue) && Enabled(t.queue, e) && |t.waiting| == |t.queue.pending|
  {
    var q := Step(t.queue, e);
    match e
    case Put(block) =>
      if Used(t.queue) < t.queue.size then
        t.(queue := q, puts := t.puts + [block], waiting := t.waiting + [|t.puts|])
      else
        var last := |t.waiting| - 1;
        t.(queue := q, puts := t.puts + [block],
           waiting := t.waiting[..last] + [|t.puts|], lost := t.lost + [t.waiting[last]])
    case Take =>
      if t.waiting != [] then
        t.(queue := q, delivered := t.delivered + [t.waiting[0]], waiting := t.waiting[1..])
      else
        t
    case _ => t.(queue := q)
  }

  /** The history follows the queue, and puts are only ever added to it. */
  lemma LogStep(t: Trace, e: Event)
    requires Valid(t.queue) && Enabled(t.queue, e) && |t.waiting| == |t.queue.pending|
    ensures Log(t, e).queue == Step(t.queue, e) && t.puts <= Log(t, e).puts
  {
  }

  /** A block is lost exactly by a put that finds every block in use, and it is the one put just before. */
  lemma LostExactly(t: Trace, e: Event)
    requires TraceInvariant(t) && Enabled(t.queue, e)
    ensures Log(t, e).lost == if e.Put? && Full(t.queue) then t.lost + [|t.puts| - 1] else t.lost
  {
    if e.Put? {
      PutOutcome(t.queue, e.block);
    }
  }

  /** The puts of a run that are overwritten, told from how full the queue was. */
  ghost function Overwrites(t: Trace, events: seq<Event>): seq<int>
    decreases |events|
  {
    if events == [] then []
    else
      (if events[0].Put? && CanPut(t.queue) && Full(t.queue) then [|t.puts| - 1] else [])
      + Overwrites(Next(t, events[0]), events[1..])
  }

  lemma NextKeepsTrack(t: Trace, e: Event)
    requires TraceInvariant(t)
    ensures TraceInvariant(Next(t, e))
    ensures Next(t, e).lost == if e.Put? && CanPut(t.queue) && Full(t.queue) then t.lost + [|t.puts| - 1] else t.lost
  {
    if Enabled(t.queue, e) {
      LogKeepsInvariant(t, e);
      LostExactly(t, e);
    }
  }

  /** Over every run exactly these are lost; so nothing is, if no put ever finds all blocks in use. */
  lemma {:induction false} LostOverRuns(t: Trace, events: seq<Event>)
    requires TraceInvariant(t)
    ensures After(t, events).lost == t.lost + Overwrites(t, events)
    decreases |events|
  {
    hide TraceInvariant, Next;
    if events == [] {
      assert t.lost + [] == t.lost;
    } else {
      var e, rest := events[0], Overwrites(Next(t, events[0]), events[1..]);
      NextKeepsTrack(t, e);
      LostOverRuns(Next(t, e), events[1..]);
      if e.Put? && CanPut(t.queue) && Full(t.queue) {
        assert t.lost + ([|t.puts| - 1] + rest) == t.lost + [|t.puts| - 1] + rest;
      } else {
        assert [] + rest == rest;
      }
    }
  }

  /** The blocks with the given put numbers. */
  function Blocks(puts: seq<Block>, ids: seq<nat>): (b: seq<Block>)
    requires forall i :: 0 <= i < |ids| ==> ids[i] < |puts|
    ensures |b| == |ids|
  {
    seq(|ids|, i requires 0 <= i < |ids| => puts[ids[i]])
  }

  predicate Increasing(ids: seq<nat>) {
    forall i, j :: 0 <= i < j < |ids| ==> ids[i] < ids[j]
  }

  predicate Below(ids: seq<nat>, n: nat) {
    forall i :: 0 <= i < |ids| ==> ids[i] < n
  }

  /** A put block was delivered, is pending or was overwritten. */
  predicate Accounted(t: Trace, id: nat) {
    id in t.delivered || id in t.waiting || id in t.lost
  }

  ghost predicate TraceInvariant(t: Trace) {
    && Valid(t.queue)
    // delivered blocks, then pending ones, are put blocks in the order they were put
    && Below(t.delivered, |t.puts|) && Below(t.waiting, |t.puts|) && Below(t.lost, |t.puts|)
    && Increasing(t.delivered + t.waiting)
    && t.queue.pending == Blocks(t.puts, t.waiting)
    && (t.queue.detached.Some? ==>
          t.delivered != [] && t.queue.detached.value == t.puts[t.delivered[|t.delivered| - 1]])
    // every put block was delivered, is pending or was overwritten
    && |t.puts| == |t.delivered| + |t.waiting| + |t.lost|
    && (forall id :: 0 <= id < |t.puts| ==> Accounted(t, id))
    // the most recent block is the last pending one until it is taken
    && (t.waiting != [] ==> t.waiting[|t.waiting| - 1] == |t.puts| - 1)
    && (t.waiting == [] && t.puts != [] ==>
          t.delivered != [] && t.delivered[|t.delivered| - 1] == |t.puts| - 1)
  }

  lemma IncreasingAppend(ids: seq<nat>, n: nat)
    requires Increasing(ids) && Below(ids, n)
    ensures Increasing(ids + [n])
  {
  }

  lemma LogPutKeepsOrder(t: Trace, block: Block)
    requires TraceInvariant(t) && CanPut(t.queue)
    ensures var t' := Log(t, Put(block));
            Increasing(t'.delivered + t'.waiting)
  {
    var t' := Log(t, Put(block));
    var ids := t.delivered + t.waiting;
    assert Below(ids, |t.puts|);
    if Used(t.queue) < t.queue.size {
      IncreasingAppend(ids, |t.puts|);
      assert t'.delivered + t'.waiting == ids + [|t.puts|];
    } else {
      IncreasingAppend(ids[..|ids| - 1], |t.puts|);
      assert t'.delivered + t'.waiting == ids[..|ids| - 1] + [|t.puts|];
    }
  }

  lemma LogPutKeepsTrack(t: Trace, block: Block, id: nat)
    requires TraceInvariant(t) && CanPut(t.queue) && id <= |t.puts|
    ensures Accounted(Log(t, Put(block)), id)
  {
    var t' := Log(t, Put(block));
    if id == |t.puts| {
      assert t'.waiting[|t'.waiting| - 1] == id;
      return;
    }
    assert Accounted(t, id);
    if id in t.waiting {
      var i :| 0 <= i < |t.waiting| && t.waiting[i] == id;
      assert i < |t'.waiting| && (t'.waiting[i] == id || t'.lost[|t.lost|] == id);
    } else if id in t.lost {
      var i :| 0 <= i < |t.lost| && t.lost[i] == id;
      assert t'.lost[i] == id;
    }
  }

  lemma LogPut(t: Trace, block: Block)
    requires TraceInvariant(t) && CanPut(t.queue)
    ensures TraceInvariant(Log(t, Put(block)))
  {
    var t' := Log(t, Put(block));
    assert t'.queue.pending == Blocks(t'.puts, t'.waiting);
    LogPutKeepsOrder(t, block);
    forall id | 0 <= id < |t'.puts|
      ensures Accounted(t', id)
    {
      LogPutKeepsTrack(t, block, id);
    }
  }

  lemma LogTake(t: Trace)
    requires TraceInvariant(t) && t.queue.detached.None?
    ensures TraceInvariant(Log(t, Take))
  {
    var t' := Log(t, Take);
    if t.waiting != [] {
      assert t'.delivered + t'.waiting == t.delivered + t.waiting;
      assert t'.queue.pending == Blocks(t'.puts, t'.waiting);
      assert t'.delivered[|t.delivered|] == t.waiting[0];
      forall id | 0 <= id < |t'.puts|
        ensures Accounted(t', id)
      {
        assert Accounted(t, id);
        if id in t.delivered {
          var i :| 0 <= i < |t.delivered| && t.delivered[i] == id;
          assert t'.delivered[i] == id;
        } else if id in t.waiting {
          var i :| 0 <= i < |t.waiting| && t.waiting[i] == id;
          assert i == 0 || t'.waiting[i - 1] == id;
        }
      }
    }
  }

  lemma LogKeepsInvariant(t: Trace, e: Event)
    requires TraceInvariant(t) && Enabled(t.queue, e)
    ensures TraceInvariant(Log(t, e))
  {
    match e
    case Put(block) => LogPut(t, block);
    case Take => LogTake(t);
    case _ =>
      var t' := Log(t, e);
      forall id | 0 <= id < |t'.puts|
        ensures Accounted(t', id)
      {
        assert Accounted(t, id);
      }
  }

  /** A take moves one number, or none, from the waiting to the delivered ones. */
  lemma TakeMovesOne(t: Trace)
    requires TraceInvariant(t) && t.queue.detached.None?
    ensures var t' := Log(t, Take);
            && t'.puts == t.puts && t'.lost == t.lost && t'.queue.poisoned == t.queue.poisoned
            && t'.delivered + t'.waiting == t.delivered + t.waiting
            && |t'.queue.pending| == if t.waiting == [] then 0 else |t.queue.pending| - 1
  {
    if t.waiting != [] {
      assert [t.waiting[0]] + t.waiting[1..] == t.waiting;
    }
  }

  /** One event of a run; an event that is not enabled (a consumer out of turn) does not happen. */
  ghost function Next(t: Trace, e: Event): Trace {
    if TraceInvariant(t) && Enabled(t.queue, e) then Log(t, e) else t
  }

  ghost function After(t: Trace, events: seq<Event>): Trace
    decreases |events|
  {
    if events == [] then t else After(Next(t, events[0]), events[1..])
  }

  lemma {:induction false} EveryRunKeepsInvariant(t: Trace, events: seq<Event>)
    requires TraceInvariant(t)
    ensures TraceInvariant(After(t, events))
    decreases |events|
  {
    if events == [] {
    } else {
      if Enabled(t.queue, events[0]) {
        LogKeepsInvariant(t, events[0]);
      }
      EveryRunKeepsInvariant(Next(t, events[0]), events[1..]);
    }
  }

  /** Strictly increasing numbers below n, n of them, are all the numbers below n. */
  lemma {:induction false} IncreasingIsIdentity(ids: seq<nat>, n: nat)
    requires Increasing(ids) && Below(ids, n) && |ids| == n
    ensures forall i :: 0 <= i < n ==> ids[i] == i
  {
    if n > 0 {
      var front := ids[..n - 1];
      assert Below(front, n - 1) by {
        forall i | 0 <= i < n - 1
          ensures front[i] < n - 1
        {
          assert ids[i] < ids[n - 1];
        }
      }
      IncreasingIsIdentity(front, n - 1);
      assert n > 1 ==> ids[n - 2] == front[n - 2] == n - 2 && ids[n - 2] < ids[n - 1];
      assert forall i :: 0 <= i < n - 1 ==> ids[i] == front[i];
    }
  }

  /** Without an overwrite, delivered and pending blocks are exactly the blocks put, in order. */
  lemma NothingLost(t: Trace)
    requires TraceInvariant(t) && t.lost == []
    ensures Blocks(t.puts, t.delivered) + t.queue.pending == t.puts
  {
    var ids := t.delivered + t.waiting;
    assert Below(ids, |t.puts|);
    IncreasingIsIdentity(ids, |t.puts|);
    assert Blocks(t.puts, t.delivered) + t.queue.pending == Blocks(t.puts, ids);
    assert Blocks(t.puts, ids) == t.puts;
  }

  /** Neither puts nor interrupts touch the block the consumer holds. */
  lemma {:induction false} DetachedIsolated(t: Trace, events: seq<Event>)
    requires forall i :: 0 <= i < |events| ==> events[i].Put? || events[i].Interrupt?
    ensures After(t, events).queue.detached == t.queue.detached
    ensures After(t, events).delivered == t.delivered
    decreases |events|
  {
    if events == [] {
    } else {
      DetachedIsolated(Next(t, events[0]), events[1..]);
    }
  }
}
