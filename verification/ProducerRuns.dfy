module ProducerRuns {
  /* Any sequence of calls on one implicit producer (src/concurrentqueue.h), bulk or single, with
     allocations failing at any time, is a run of a FIFO queue. */

  import opened BlockIndex
  import opened BlockIndexInvariant
  import opened Blocks
  import opened CircularArithmetic
  import opened ImplicitProducers
  import opened Options
  import opened SequentialView

  datatype Call = Enqueue(item: Item) | EnqueueBulk(items: seq<Item>) | Dequeue | DequeueBulk(max: nat)

  datatype Outcome = Stored(ok: bool) | Took(items: seq<Item>)

  /** What a call offers, and how many elements it asks for. */
  function Offered(call: Call): seq<Item> {
    match call case Enqueue(x) => [x] case EnqueueBulk(xs) => xs case _ => []
  }

  function Wanted(call: Call): nat {
    match call case Dequeue => 1 case DequeueBulk(max) => max case _ => 0
  }

  /** One call on a FIFO queue: all of the offer goes to the back or none of it, and as much as is
      wanted and there comes from the front. */
  ghost predicate IsFifo(before: seq<Item>, call: Call, out: Outcome, after: seq<Item>) {
    match out
    case Stored(ok) => (call.Enqueue? || call.EnqueueBulk?) && after == if ok then before + Offered(call) else before
    case Took(items) =>
      && (call.Dequeue? || call.DequeueBulk?) && before == items + after
      && |items| == if Wanted(call) < |before| then Wanted(call) else |before|
  }

  function Added(call: Call, out: Outcome): seq<Item> { if out == Stored(true) then Offered(call) else [] }

  function Removed(out: Outcome): seq<Item> { match out case Took(items) => items case Stored(_) => [] }

  /** `states` are the contents before the first call, between calls, and after the last. */
  ghost predicate FifoRun(calls: seq<Call>, outs: seq<Outcome>, states: seq<seq<Item>>) {
    && |outs| == |calls| && |states| == |calls| + 1
    && forall i {:trigger calls[i]} | 0 <= i < |calls| :: IsFifo(states[i], calls[i], outs[i], states[i + 1])
  }

  function Accepted(calls: seq<Call>, outs: seq<Outcome>): seq<Item>
    requires |outs| == |calls|
  {
    if calls == [] then []
    else
      var n := |calls| - 1;
      Accepted(calls[..n], outs[..n]) + Added(calls[n], outs[n])
  }

  function Taken(outs: seq<Outcome>): seq<Item> {
    if outs == [] then []
    else Taken(outs[..|outs| - 1]) + Removed(outs[|outs| - 1])
  }

  lemma Longer(a: seq<Item>, b: seq<Item>, c: seq<Item>, d: seq<Item>, x: seq<Item>)
    requires a + b == c + d
    ensures a + (b + x) == c + (d + x)
  {
    assert a + (b + x) == (a + b) + x;
    assert c + (d + x) == (c + d) + x;
  }

  /** Whatever the calls, what was there and what was accepted comes out in that order, and the rest
      is still there. */
  lemma {:induction false} FirstInFirstOut(calls: seq<Call>, outs: seq<Outcome>, states: seq<seq<Item>>)
    requires FifoRun(calls, outs, states)
    ensures states[0] + Accepted(calls, outs) == Taken(outs) + states[|calls|]
  {
    if calls != [] {
      var n := |calls| - 1;
      forall i | 0 <= i < n ensures IsFifo(states[..n + 1][i], calls[..n][i], outs[..n][i], states[..n + 1][i + 1]) {
        assert IsFifo(states[i], calls[i], outs[i], states[i + 1]);
      }
      FirstInFirstOut(calls[..n], outs[..n], states[..n + 1]);
      assert IsFifo(states[n], calls[n], outs[n], states[n + 1]);
      assert states[0] + Accepted(calls[..n], outs[..n]) == Taken(outs[..n]) + states[n];
      match outs[n]
      case Stored(ok) =>
        var x := Added(calls[n], outs[n]);
        Longer(states[0], Accepted(calls[..n], outs[..n]), Taken(outs[..n]), states[n], x);
        assert states[n + 1] == states[n] + x && Taken(outs) == Taken(outs[..n]);
      case Took(items) =>
        assert Accepted(calls, outs) == Accepted(calls[..n], outs[..n]);
        assert Taken(outs[..n]) + (items + states[n + 1]) == (Taken(outs[..n]) + items) + states[n + 1];
    }
  }

  // The two kinds of call, each by the producer's own methods.
  method Store(p: ImplicitProducer, call: Call, canAlloc: bool) returns (out: Outcome)
    requires p.Valid() && (call.Enqueue? || call.EnqueueBulk?)
    modifies p, p.parent
    ensures p.Valid() && p.headIndex <= |p.sent| && IsFifo(old(p.Contents()), call, out, p.Contents())
    ensures LeavesOthers(old(p.View()), p.View())
    ensures p.headIndex == old(p.headIndex) + |Removed(out)| && p.sent == old(p.sent) + Added(call, out)
  {
    hide Good, Settled, TookOnly, Untouched, Mine, LeavesOthers;
    var ok: bool;
    match call {
      case Enqueue(x) => ok := p.Enqueue(x, canAlloc);
      case EnqueueBulk(xs) => ok := p.EnqueueBulk(xs, canAlloc);
    }
    SentBounds(p.View());
    return Stored(ok);
  }

  method Take(p: ImplicitProducer, call: Call) returns (out: Outcome)
    requires p.Valid() && (call.Dequeue? || call.DequeueBulk?)
    modifies p, p.parent
    ensures p.Valid() && p.headIndex <= |p.sent| && IsFifo(old(p.Contents()), call, out, p.Contents())
    ensures LeavesOthers(old(p.View()), p.View())
    ensures p.headIndex == old(p.headIndex) + |Removed(out)| && p.sent == old(p.sent) + Added(call, out)
  {
    hide Good, Settled, TookOnly, Untouched, Mine, LeavesOthers;
    var items := [];
    match call {
      case Dequeue =>
        var r := p.Dequeue();
        if r.Some? { items := [r.value]; }
      case DequeueBulk(max) => items := p.DequeueBulk(max);
    }
    SentBounds(p.View());
    return Took(items);
  }

  method MakeCall(p: ImplicitProducer, call: Call, canAlloc: bool) returns (out: Outcome)
    requires p.Valid()
    modifies p, p.parent
    ensures p.Valid() && p.headIndex <= |p.sent| && IsFifo(old(p.Contents()), call, out, p.Contents())
    ensures LeavesOthers(old(p.View()), p.View())
    ensures p.headIndex == old(p.headIndex) + |Removed(out)| && p.sent == old(p.sent) + Added(call, out)
  {
    hide Good, Settled, IsFifo, LeavesOthers;
    if call.Enqueue? || call.EnqueueBulk? { out := Store(p, call, canAlloc); } else { out := Take(p, call); }
  }

  method MakeCalls(p: ImplicitProducer, calls: seq<Call>, canAlloc: seq<bool>)
    returns (outs: seq<Outcome>, ghost states: seq<seq<Item>>)
    requires p.Valid() && |canAlloc| == |calls|
    modifies p, p.parent
    ensures p.Valid() && p.headIndex <= |p.sent| && FifoRun(calls, outs, states) && states[0] == old(p.Contents())
            && states[|calls|] == p.Contents()
    ensures old(p.Contents()) + Accepted(calls, outs) == Taken(outs) + p.Contents()
  {
    SentBounds(p.View());
    hide IsFifo, ImplicitProducer.Valid, ImplicitProducer.View;
    outs, states := [], [p.Contents()];
    while |outs| < |calls|
      invariant |outs| <= |calls| && p.Valid() && p.headIndex <= |p.sent| && |states| == |outs| + 1
      invariant states[0] == old(p.Contents()) && states[|outs|] == p.Contents()
      invariant forall i {:trigger calls[i]} | 0 <= i < |outs| :: IsFifo(states[i], calls[i], outs[i], states[i + 1])
      decreases |calls| - |outs|
    {
      var out := MakeCall(p, calls[|outs|], canAlloc[|outs|]);
      outs, states := outs + [out], states + [p.Contents()];
    }
    FirstInFirstOut(calls, outs, states);
  }

  // ----- A fresh queue takes what fits -----

  lemma FreshHolds(v: View, n: nat)
    requires v.index == Initial() && n <= CapacityAt(0) && Spare(v.size, v.next, v.free) >= n
    ensures CanHold(v, n)
  {
  }

  lemma NextHolds(v: View, v': View, ok: bool, n: nat)
    requires Good(v) && Settled(v) && v.head == 0 && |v.sent| < BLOCK_SIZE * n && BLOCK_SIZE * n < HALF
    requires BlocksFor(|v.sent|) <= n && CanHold(v, n - BlocksFor(|v.sent|)) && Stores(v, v', ok, 0, false)
    ensures ok && BlocksFor(|v.sent| + 1) <= n && CanHold(v', n - BlocksFor(|v.sent| + 1))
  {
    var left: nat := n - BlocksFor(|v.sent|);
    SettledBlocks(v);
    if left > 0 { HoldsFewer(v, 1, left); }
    hide Good, Settled, CanHold;
    if |v.sent| % BLOCK_SIZE == 0 { assert CanHold(v, (left - 1) + 1) <==> CanHold(v', left - 1); }
  }

  /** One element more, in a queue with room for the blocks it needs. */
  method StoreNext(p: ImplicitProducer, x: Item, n: nat)
    requires p.Valid() && p.tailIndex == |p.sent| < BLOCK_SIZE * n && p.headIndex == 0 && BLOCK_SIZE * n < HALF
    requires BlocksFor(p.tailIndex) <= n && CanHold(p.View(), n - BlocksFor(p.tailIndex))
    modifies p, p.parent
    ensures p.Valid() && p.sent == old(p.sent) + [x] && p.headIndex == 0 && p.tailIndex == |p.sent|
    ensures BlocksFor(p.tailIndex) <= n && CanHold(p.View(), n - BlocksFor(p.tailIndex))
  {
    ghost var v := p.View();
    hide Good, Settled, Mine, LeavesOthers, Untouched, CanHold, Stores;
    var ok := p.Enqueue(x, false);
    NextHolds(v, p.View(), ok, n);
  }

  /** A new producer on a new pool of n blocks, n within the first ring, takes n blocks of elements
      without allocating. */
  method FillNew(n: nat, items: seq<Item>) returns (p: ImplicitProducer)
    requires n <= IMPLICIT_INITIAL_INDEX_SIZE && |items| <= BLOCK_SIZE * n
    ensures fresh(p) && fresh(p.parent) && p.Valid() && p.headIndex <= |p.sent| && p.Contents() == items
  {
    var pool := new BlockPool(n);
    p := new ImplicitProducer(pool);
    FreshHolds(p.View(), n);
    hide ImplicitProducer.View, CanHold;
    var i := 0;
    while i < |items|
      invariant 0 <= i <= |items| && fresh(p) && fresh(p.parent) && p.Valid()
      invariant p.sent == items[..i] && p.headIndex == 0 && p.tailIndex == |p.sent|
      invariant BlocksFor(p.tailIndex) <= n && CanHold(p.View(), n - BlocksFor(p.tailIndex))
    {
      StoreNext(p, items[i], n);
      i := i + 1;
    }
    assert items[..|items|] == items;
  }
}
