module TryDequeue {
  /* The producers of one queue, sharing its block pool (src/concurrentqueue.h), and try_dequeue over
     all of them: the scoring loop, then the attempts.

     Unless the queue is `quiet`, other threads may make any calls on any producers before every
     access, and a dequeue may lose its ticket and fail on a producer that is not empty. */

  import opened Blocks
  import opened ImplicitProducers
  import opened Options
  import opened ProducerRuns
  import opened SequentialView

  function NonEmpty(sizes: seq<nat>, n: nat): (c: nat)
    requires n <= |sizes|
    ensures c <= n
  {
    if n == 0 then 0 else NonEmpty(sizes, n - 1) + if sizes[n - 1] > 0 then 1 else 0
  }

  /** The heuristic's choice: the first of the largest among the producers up to the third non-empty one. */
  ghost predicate IsBest(sizes: seq<nat>, best: nat) {
    && best < |sizes| && sizes[best] > 0 && NonEmpty(sizes, best) < 3
    && (forall k | 0 <= k < best :: sizes[k] < sizes[best])
    && (forall k {:trigger NonEmpty(sizes, k)} | best < k < |sizes| && NonEmpty(sizes, k) < 3 :: sizes[k] <= sizes[best])
  }

  ghost predicate AllEmpty(queues: seq<seq<Item>>) { forall k | 0 <= k < |queues| :: queues[k] == [] }

  ghost function Sizes(queues: seq<seq<Item>>): (sizes: seq<nat>)
    ensures |sizes| == |queues| && forall k | 0 <= k < |queues| :: sizes[k] == |queues[k]|
  {
    seq(|queues|, k requires 0 <= k < |queues| => |queues[k]|)
  }

  /** A producer's elements so far, and its head. */
  datatype Past = Past(sent: seq<Item>, head: nat)

  /** What is left of them. */
  function Left(p: Past): seq<Item> { if p.head <= |p.sent| then p.sent[p.head..] else [] }

  ghost function Queues(ps: seq<Past>): (q: seq<seq<Item>>)
    ensures |q| == |ps| && forall k | 0 <= k < |ps| :: q[k] == Left(ps[k])
  {
    seq(|ps|, k requires 0 <= k < |ps| => Left(ps[k]))
  }

  /** Elements are only appended, and heads only advance. */
  ghost predicate Onward(a: seq<Past>, b: seq<Past>) {
    |a| == |b| && forall k {:trigger b[k]} | 0 <= k < |a| :: a[k].sent <= b[k].sent && a[k].head <= b[k].head
  }

  /** What one call does to its producer. */
  ghost predicate Advances(a: Past, call: Call, out: Outcome, b: Past) {
    && IsFifo(Left(a), call, out, Left(b)) && a.head <= |a.sent| && b.head <= |b.sent|
    && b == Past(a.sent + Added(call, out), a.head + |Removed(out)|)
  }

  lemma AdvancesOnward(ps: seq<Past>, k: nat, call: Call, out: Outcome, p: Past)
    requires k < |ps| && Advances(ps[k], call, out, p)
    ensures Onward(ps, ps[k := p])
  {
  }

  /** Producers of one pool that share no block. */
  ghost predicate TogetherValid(pool: BlockPool, producers: seq<ImplicitProducer>)
    reads pool, producers
  {
    && (forall i, k | 0 <= i < k < |producers| :: producers[i] != producers[k])
    && (forall k | 0 <= k < |producers| :: producers[k].parent == pool && producers[k].Valid())
    && (forall i, k | 0 <= i < |producers| && 0 <= k < |producers|
       && i != k :: Separate(producers[i].View(), producers[k].View()))
  }

  lemma OneMore(p: ImplicitProducer, pool: BlockPool, producers: seq<ImplicitProducer>)
    requires TogetherValid(pool, producers) && p.parent == pool && p.Valid() && p.homes == [] && p !in producers
    ensures TogetherValid(pool, [p] + producers)
  {
    hide Good, Separate, Settled;
    var all := [p] + producers;
    forall i, k | 0 <= i < |all| && 0 <= k < |all| && i != k ensures Separate(all[i].View(), all[k].View()) {
      if i == 0 { NewIsSeparate(p.View(), all[k].View()); }
      if k == 0 { NewIsSeparate(p.View(), all[i].View()); }
    }
  }

  /** An attempt on a producer: how far all of them were when it was made, and whether it lost its ticket. */
  datatype Attempt = Attempt(seen: seq<Past>, lost: bool)

  ghost predicate Fails(at: Attempt, k: nat) { at.lost || (k < |at.seen| && Left(at.seen[k]) == []) }

  /** Between a and b the producer was tried, and had nothing or took the ticket of another. */
  ghost predicate Missed(a: seq<Past>, b: seq<Past>, k: nat, tried: map<nat, Attempt>) {
    k in tried && Onward(a, tried[k].seen) && Onward(tried[k].seen, b) && Fails(tried[k], k)
  }

  lemma OneMoreMissed(a: seq<Past>, b: seq<Past>, c: seq<Past>, k: nat, best: nat, tried: map<nat, Attempt>,
                      at: Attempt, tried': map<nat, Attempt>)
    requires Onward(a, b) && Onward(b, at.seen) && Onward(at.seen, c) && tried' == tried[k := at] && k != best
    requires forall i: nat | i < k && i != best :: Missed(a, b, i, tried)
    ensures Fails(at, k) ==> forall i: nat | i <= k && i != best :: Missed(a, c, i, tried')
  {
    OnwardThrough(a, b, at.seen);
    OnwardThrough(b, at.seen, c);
    forall i: nat | i < k && i != best ensures Missed(a, c, i, tried') {
      assert Missed(a, b, i, tried);
      OnwardThrough(tried[i].seen, b, c);
    }
    hide Onward, Fails;
  }

  /** All the others were tried after the best. */
  lemma AllMissed(a: seq<Past>, b: seq<Past>, c: seq<Past>, d: seq<Past>, best: nat, others: map<nat, Attempt>,
                  first: Attempt, tried: map<nat, Attempt>)
    requires Onward(a, b) && Onward(b, first.seen) && Onward(first.seen, c) && Onward(c, d) && Fails(first, best)
    requires tried == others[best := first]
    requires forall k | 0 <= k < |d| && k != best :: Missed(c, d, k, others)
    ensures forall k | 0 <= k < |d| :: Missed(a, d, k, tried)
  {
    OnwardThrough(a, b, first.seen);
    OnwardThrough(a, first.seen, c);
    OnwardThrough(first.seen, c, d);
    forall k | 0 <= k < |d| ensures Missed(a, d, k, tried) {
      if k != best {
        assert Missed(c, d, k, others);
        OnwardThrough(a, c, others[k].seen);
      }
    }
    hide Onward, Fails;
  }

  class ConcurrentQueue {
    const parent: BlockPool
    var producers: seq<ImplicitProducer>    // in list order

    ghost predicate Valid()
      reads this, parent, producers
    {
      parent.Valid() && TogetherValid(parent, producers)
    }

    /** How far each producer has got. */
    ghost function Progress(): (p: seq<Past>)
      reads this, producers
      ensures |p| == |producers| && forall k | 0 <= k < |producers| :: p[k] == Past(producers[k].sent, producers[k].headIndex)
    {
      seq(|producers|, k requires 0 <= k < |producers| reads this, producers => Past(producers[k].sent, producers[k].headIndex))
    }

    constructor (size: nat)
      ensures Valid() && producers == [] && fresh(parent)
    {
      parent := new BlockPool(size);
      producers := [];
    }

    /** add_producer: the new producer comes first. */
    method AddProducer()
      requires Valid()
      modifies this`producers
      ensures Valid() && |producers| == |old(producers)| + 1 && producers[1..] == old(producers) && fresh(producers[0])
      ensures Progress() == [Past([], 0)] + old(Progress())
    {
      hide TogetherValid, ImplicitProducer.Valid, ImplicitProducer.View, ImplicitProducer.Contents, BlockPool.Valid, PoolGood;
      var p := new ImplicitProducer(parent);
      OneMore(p, parent, producers);
      producers := [p] + producers;
    }

    /** One call of some thread on one producer concerns no other producer, though they share the
        pool: the others keep their contents. */
    method CallOn(k: nat, call: Call, canAlloc: bool) returns (out: Outcome)
      requires Valid() && k < |producers|
      modifies producers[k], parent
      ensures Valid() && Advances(old(Progress())[k], call, out, Progress()[k])
      ensures Progress() == old(Progress())[k := Progress()[k]]
    {
      hide Good, LeavesOthers, IsFifo;
      var p := producers[k];
      ghost var v := p.View();
      SentBounds(v);
      ghost var views := seq(|producers|,
        i requires 0 <= i < |producers| reads this, producers, set q <- producers :: q.parent => producers[i].View());
      out := MakeCall(p, call, canAlloc);
      SentBounds(p.View());
      PoolOf(p.View());
      forall i | 0 <= i < |producers| && i != k
        ensures producers[i].View() == InPool(views[i], p.View()) && producers[i].Valid()
        ensures Separate(p.View(), producers[i].View()) && Separate(producers[i].View(), p.View())
      {
        OtherKept(v, p.View(), views[i]);
      }
      hide Separate;
      forall i, j | 0 <= i < |producers| && 0 <= j < |producers| && i != j
        ensures Separate(producers[i].View(), producers[j].View())
      {
        if i != k && j != k { OthersApart(views[i], views[j], p.View()); }
      }
    }

    /** Calls of other threads, before an access. */
    method Interfere(quiet: bool)
      requires Valid()
      modifies producers, parent
      ensures Valid() && Onward(old(Progress()), Progress())
      ensures quiet ==> Progress() == old(Progress())
    {
      hide TogetherValid, Advances;
      var calls: nat := *;
      if quiet { return; }
      while calls > 0
        invariant Valid() && Onward(old(Progress()), Progress())
      {
        var k: nat, call: Call, canAlloc: bool := *, *, *;
        if k < |producers| {
          ghost var before := Progress();
          var out := CallOn(k, call, canAlloc);
          AdvancesOnward(before, k, call, out, Progress()[k]);
        }
        calls := calls - 1;
      }
    }

    /** A dequeue of some producer loses its ticket. */
    method Lose(k: nat)
      requires Valid() && k < |producers|
      modifies producers[k]
      ensures Valid() && Progress() == old(Progress())
    {
      hide Good, Settled, Separate;
      ghost var views := seq(|producers|,
        i requires 0 <= i < |producers| reads this, producers, set q <- producers :: q.parent => producers[i].View());
      producers[k].LoseTicket();
      forall i | 0 <= i < |producers| ensures producers[i].View() == views[i] {}
    }

    method SizeApprox(k: nat, quiet: bool) returns (n: nat)
      requires Valid() && k < |producers|
      modifies producers, parent
      ensures Valid() && Onward(old(Progress()), Progress())
      ensures quiet ==> Progress() == old(Progress()) && n == |Left(Progress()[k])|
    {
      Interfere(quiet);
      hide Good, Separate, Settled, Onward;
      n := producers[k].SizeApprox();
    }

    /** An attempt on one producer: what it takes is the element at the head it finds.  `popped`
        records what the call has taken: the producer, and the index in it. */
    method DequeueFrom(k: nat, quiet: bool, ghost before: seq<(nat, nat)>)
      returns (r: Option<Item>, ghost popped: seq<(nat, nat)>, ghost attempt: Attempt)
      requires Valid() && k < |producers|
      modifies producers, parent
      ensures Valid() && Onward(old(Progress()), Progress())
      ensures match r
              case None => popped == before
              case Some(x) => TookOne(old(Progress())[k], Progress()[k], x) && popped == before + [(k, Progress()[k].head - 1)]
      ensures Onward(old(Progress()), attempt.seen) && Onward(attempt.seen, Progress())
      ensures r.None? <==> Fails(attempt, k)
      ensures quiet ==> Progress() == AfterTake(old(Progress()), k) && (r.Some? <==> Left(old(Progress())[k]) != [])
    {
      hide TogetherValid, Advances, Onward, AfterTake;
      ghost var start := Progress();
      Interfere(quiet);
      popped := before;
      var loses: bool := *;
      if !quiet && loses {
        attempt := Attempt(Progress(), true);
        Lose(k);
        OnwardSelf(Progress());
        return None, before, attempt;
      }
      ghost var found := Progress();
      var out := CallOn(k, Dequeue, false);
      AdvancesOnward(found, k, Dequeue, out, Progress()[k]);
      OnwardThrough(start, found, Progress());
      TakenHead(start, found, k, out, Progress()[k]);
      attempt := Attempt(found, false);
      r := if |out.items| > 0 then Some(out.items[0]) else None;
      if r.Some? { popped := before + [(k, Progress()[k].head - 1)]; }
    }

    /** One round of the scoring loop. */
    method Score(k: nat, quiet: bool, nonEmptyCount: nat, best: nat, bestSize: nat, ghost sizes: seq<nat>)
      returns (nonEmptyCount': nat, best': nat, bestSize': nat)
      requires Valid() && k < |producers| == |sizes| && nonEmptyCount < 3
               && Scored(quiet, sizes, k, nonEmptyCount, best, bestSize)
      requires quiet ==> sizes == Sizes(Queues(Progress()))
      modifies producers, parent
      ensures Valid() && Onward(old(Progress()), Progress()) && (quiet ==> Progress() == old(Progress()))
      ensures Scored(quiet, sizes, k + 1, nonEmptyCount', best', bestSize')
    {
      hide TogetherValid, Onward, Scored;
      nonEmptyCount', best', bestSize' := nonEmptyCount, best, bestSize;
      var size := SizeApprox(k, quiet);
      ScoreNext(quiet, sizes, k, nonEmptyCount, best, bestSize, size);
      if size > 0 {
        if size > bestSize { bestSize', best' := size, k; }
        nonEmptyCount' := nonEmptyCount + 1;
      }
    }

    /** The scoring loop. */
    method PickBest(quiet: bool) returns (nonEmptyCount: nat, best: nat)
      requires Valid()
      modifies producers, parent
      ensures Valid() && Onward(old(Progress()), Progress()) && (nonEmptyCount > 0 ==> best < |producers|)
      ensures quiet ==> Progress() == old(Progress()) && (nonEmptyCount == 0 <==> AllEmpty(Queues(Progress())))
      ensures quiet && nonEmptyCount > 0 ==> IsBest(Sizes(Queues(Progress())), best)
    {
      hide *;
      nonEmptyCount, best := 0, 0;
      var bestSize, k := 0, 0;
      ghost var start := Progress();
      ghost var sizes := Sizes(Queues(start));
      OnwardSelf(start);
      ScoreStart(quiet, sizes);
      while nonEmptyCount < 3 && k < |producers|
        invariant k <= |producers| == |sizes| && Valid() && Onward(start, Progress()) && (quiet ==> Progress() == start)
        invariant Scored(quiet, sizes, k, nonEmptyCount, best, bestSize)
        decreases |sizes| - k
      {
        ghost var before := Progress();
        nonEmptyCount, best, bestSize := Score(k, quiet, nonEmptyCount, best, bestSize, sizes);
        OnwardThrough(start, before, Progress());
        k := k + 1;
      }
      ScoreDone(quiet, Queues(start), k, nonEmptyCount, best, bestSize);
    }

    /** Whatever the other threads do, a call takes exactly what it returns, from the head of one
        queue.  One that fails though some producer looked non-empty has tried every producer, and each
        had nothing then, or the attempt lost its ticket.  On a quiet queue it fails only if all producers
        are empty, and otherwise takes the oldest element of the producer the heuristic picks, and nothing
        else. */
    method TryDequeue(quiet: bool) returns (r: Option<Item>, ghost popped: seq<(nat, nat)>, ghost tried: map<nat, Attempt>)
      requires Valid()
      modifies producers, parent
      ensures Valid() && Onward(old(Progress()), Progress())
      ensures match r
              case None => popped == []
              case Some(x) =>
                |popped| == 1 && popped[0].0 < |producers| && TookAt(old(Progress()), Progress(), popped[0].0, popped[0].1, x)
      ensures r.None? && tried != map[] ==> forall k | 0 <= k < |producers| :: Missed(old(Progress()), Progress(), k, tried)
      ensures quiet ==> (r.None? <==> AllEmpty(Queues(old(Progress()))))
      ensures quiet && r.None? ==> Progress() == old(Progress())
      ensures quiet && r.Some? ==>
              IsBest(Sizes(Queues(old(Progress()))), popped[0].0) && Progress() == AfterTake(old(Progress()), popped[0].0)
    {
      hide ConcurrentQueue.Valid, Onward, AfterTake, IsBest, AllEmpty, TookOne, TookAt, Sizes, Queues, Missed, Fails;
      ghost var start := Progress();
      popped, tried := [], map[];
      var nonEmptyCount, best := PickBest(quiet);
      if nonEmptyCount > 0 {
        ghost var scored := Progress();
        ghost var first;
        r, popped, first := DequeueFrom(best, quiet, []);
        OnwardThrough(start, scored, Progress());
        if r.Some? {
          TookByCall(start, scored, Progress(), best, r.value);
          return;
        }
        if quiet { BestIsNotEmpty(Queues(start), best); }
        ghost var missed := Progress();
        ghost var others;
        r, popped, others := TryOthers(best);
        OnwardThrough(start, missed, Progress());
        tried := others[best := first];
        if r.None? { AllMissed(start, scored, missed, Progress(), best, others, first, tried); }
        if r.Some? { TookLater(start, missed, Progress(), popped[0].0, popped[0].1, r.value); }
      } else {
        r := None;
      }
    }

    /** Every producer but the best has its turn, until one gives an element. */
    method TryOthers(best: nat) returns (r: Option<Item>, ghost popped: seq<(nat, nat)>, ghost tried: map<nat, Attempt>)
      requires Valid()
      modifies producers, parent
      ensures Valid() && Onward(old(Progress()), Progress())
      ensures match r
              case None => popped == []
              case Some(x) =>
                |popped| == 1 && popped[0].0 < |producers| && TookAt(old(Progress()), Progress(), popped[0].0, popped[0].1, x)
      ensures r.None? ==> forall k | 0 <= k < |producers| && k != best :: Missed(old(Progress()), Progress(), k, tried)
    {
      hide ConcurrentQueue.Valid, Onward, AfterTake, TookOne, TookAt, Missed;
      ghost var start := Progress();
      OnwardSelf(start);
      popped, tried := [], map[];
      var k := 0;
      while k < |producers|
        invariant k <= |producers| && popped == [] && Valid() && Onward(start, Progress())
        invariant forall i | 0 <= i < k && i != best :: Missed(start, Progress(), i, tried)
      {
        if k != best {
          ghost var before := Progress();
          ghost var attempt;
          r, popped, attempt := DequeueFrom(k, false, []);
          OneMoreMissed(start, before, Progress(), k, best, tried, attempt, tried[k := attempt]);
          tried := tried[k := attempt];
          OnwardThrough(start, before, Progress());
          if r.Some? {
            TookByCall(start, before, Progress(), k, r.value);
            return;
          }
        }
        k := k + 1;
      }
      r := None;
    }
  }

  /** The element x of producer k, at `index`, was taken between a and b. */
  ghost predicate TookAt(a: seq<Past>, b: seq<Past>, k: nat, index: nat, x: Item) {
    k < |a| == |b| && a[k].head <= index < b[k].head <= |b[k].sent| && x == b[k].sent[index]
  }

  lemma TookByCall(start: seq<Past>, before: seq<Past>, after: seq<Past>, k: nat, x: Item)
    requires Onward(start, before) && Onward(before, after) && k < |before| && TookOne(before[k], after[k], x)
    ensures after[k].head > 0 && TookAt(start, after, k, after[k].head - 1, x)
  {
  }

  lemma TookLater(start: seq<Past>, before: seq<Past>, after: seq<Past>, k: nat, index: nat, x: Item)
    requires Onward(start, before) && TookAt(before, after, k, index, x)
    ensures TookAt(start, after, k, index, x)
  {
  }

  lemma BestIsNotEmpty(queues: seq<seq<Item>>, best: nat)
    requires IsBest(Sizes(queues), best)
    ensures queues[best] != []
  {
  }

  /** The element before the new head is the one taken, and it was not behind the old head. */
  ghost predicate TookOne(a: Past, b: Past, x: Item) { a.head < b.head <= |b.sent| && x == b.sent[b.head - 1] }

  /** The first element of producer k's queue is taken, if there is one. */
  ghost function AfterTake(ps: seq<Past>, k: nat): (ps': seq<Past>)
    requires k < |ps|
  {
    if Left(ps[k]) == [] then ps else ps[k := Past(ps[k].sent, ps[k].head + 1)]
  }

  lemma TakenHead(start: seq<Past>, ps: seq<Past>, k: nat, out: Outcome, p: Past)
    requires Onward(start, ps) && k < |ps| && Advances(ps[k], Dequeue, out, p)
    ensures out.Took? && ps[k := p] == AfterTake(ps, k) && (|out.items| > 0 <==> Left(ps[k]) != [])
    ensures |out.items| > 0 ==> p.head > 0 && TookOne(start[k], p, out.items[0])
  {
    OneTaken(ps[k], out, p);
    hide Advances;
    if |out.items| == 0 { assert ps[k := p] == ps; }
  }

  lemma OneTaken(a: Past, out: Outcome, b: Past)
    requires Advances(a, Dequeue, out, b)
    ensures out.Took? && (|out.items| > 0 <==> Left(a) != []) && b.head == a.head + |out.items| && b.sent == a.sent
            && |out.items| <= 1
    ensures |out.items| > 0 ==> b.head <= |b.sent| && out.items[0] == b.sent[a.head]
  {
    assert a.sent + [] == a.sent;
    if |out.items| > 0 { assert Left(a)[0] == out.items[0]; }
  }

  lemma OnwardThrough(a: seq<Past>, b: seq<Past>, c: seq<Past>)
    requires Onward(a, b) && Onward(b, c)
    ensures Onward(a, c)
  {
  }

  lemma OnwardSelf(a: seq<Past>)
    ensures Onward(a, a)
  {
  }

  // ----- The scoring loop -----

  /** What the first k producers have shown. */
  ghost predicate Scored(quiet: bool, sizes: seq<nat>, k: nat, nonEmptyCount: nat, best: nat, bestSize: nat) {
    && k <= |sizes| && (nonEmptyCount > 0 ==> best < k) && (nonEmptyCount == 0 ==> bestSize == 0)
    && (quiet ==>
          && nonEmptyCount == NonEmpty(sizes, k) && (forall i | 0 <= i < k :: sizes[i] <= bestSize)
          && (nonEmptyCount == 0 <==> forall i | 0 <= i < k :: sizes[i] == 0))
    && (quiet && nonEmptyCount > 0 ==>
          sizes[best] == bestSize > 0 && NonEmpty(sizes, best) < 3 && forall i | 0 <= i < best :: sizes[i] < bestSize)
  }

  lemma ScoreStart(quiet: bool, sizes: seq<nat>)
    ensures Scored(quiet, sizes, 0, 0, 0, 0)
  {
  }

  lemma ScoreNext(quiet: bool, sizes: seq<nat>, k: nat, nonEmptyCount: nat, best: nat, bestSize: nat, size: nat)
    requires Scored(quiet, sizes, k, nonEmptyCount, best, bestSize) && nonEmptyCount < 3 && k < |sizes|
             && (quiet ==> size == sizes[k])
    ensures Scored(quiet, sizes, k + 1, if size > 0 then nonEmptyCount + 1 else nonEmptyCount,
                   if size > bestSize then k else best, if size > bestSize then size else bestSize)
  {
  }

  lemma ScoreDone(quiet: bool, queues: seq<seq<Item>>, k: nat, nonEmptyCount: nat, best: nat, bestSize: nat)
    requires Scored(quiet, Sizes(queues), k, nonEmptyCount, best, bestSize) && (nonEmptyCount >= 3 || k == |queues|)
    ensures nonEmptyCount > 0 ==> best < |queues|
    ensures quiet ==> (nonEmptyCount == 0 <==> AllEmpty(queues))
    ensures quiet && nonEmptyCount > 0 ==> IsBest(Sizes(queues), best)
  {
    var sizes := Sizes(queues);
    if quiet {
      forall i | k <= i < |sizes| ensures NonEmpty(sizes, i) >= NonEmpty(sizes, k) { NonEmptyGrows(sizes, k, i); }
      if AllEmpty(queues) { assert forall i | 0 <= i < k :: sizes[i] == 0; }
    }
  }

  lemma {:induction false} NonEmptyGrows(sizes: seq<nat>, i: nat, k: nat)
    requires i <= k <= |sizes|
    ensures NonEmpty(sizes, i) <= NonEmpty(sizes, k)
    decreases k - i
  {
    if i < k { NonEmptyGrows(sizes, i, k - 1); }
  }
}
