/** Progress of the concurrent producers: which enqueues publish, that a dequeue moves out all
    it has claimed, and that calls end, whatever other threads do. */
module ProducersProgress {
  import opened CircularArithmetic
  import opened BlockIndex
  import opened BlockIndexInvariant
  import opened ConcurrentProducers
  import opened ProducersInvariant
  import opened ProducersSafety
  import opened Options

  // ----- Calls end -----

  function EnqStepsLeft(e: Enq): nat {
    match e
    case EIdle => 0
    case EPublish(_) | EClear(_) => 1
    case EWrite(_) | ERewind(_) => 2
    case EStoreValue(_, _) => 3
    case EReset(_, _) => 4
    case EAllocate(_) => 5
    case EFreeTake(_) => 6
    case EPoolTake(_) => 7
    case EPoolLoad(_) => 8
    case EStoreTail(_) => 9
    case EStoreKey(_) => 10
    case EGrow(_) => 11
    case ELoadValue(_) => 12
    case ELoadKey(_) => 13
    case ETestRoom(_) => 14
  }

  function DeqStepsLeft(pc: Deq): int {
    match pc
    case DIdle => 0
    case DMove(i, end, _, _, _, _) => 5 * (end - i)
    case DLoadValue(i, end, _, _) => 5 * (end - i) + 1
    case DLoadKey(i, end, _, _) => 5 * (end - i) + 2
    case DLoadTail(i, end, _) => 5 * (end - i) + 3
    case DLoadHeader(i, end) => 5 * (end - i) + 4
    case DFree(i, end, _, _, _) => 5 * (end - i) + 2
    case DClear(i, end, _, _, _) => 5 * (end - i) + 3
    case DCount(i, end, _, _, _, _) => 5 * (end - i) + 4
  }

  lemma EnqueuerStepsDown(pid: Pid, p: Producer, w: World, got: Option<Block>)
    requires EnqDefined(p, w) && p.enq != EIdle
    ensures EnqStepsLeft(EnqStep(pid, p, w, got).0.enq) < EnqStepsLeft(p.enq)
    ensures EnqStep(pid, p, w, got).0.deqs == p.deqs
  {
    hide EnqDefined, StoreKey, StoreTail, StoreValue, Grow, GrownLedger, KeyedLedger, PlacedLedger, CircularLess;
  }

  lemma DequeuerStepsDown(p: Producer, w: World, t: Thread)
    requires DeqDefined(p, w, t) && p.deqs[t] != DIdle && DeqOk(p, t, p.deqs[t])
    ensures var p' := DeqStep(p, w, t).0;
            && p'.deqs == p.deqs[t := p'.deqs[t]] && p'.enq == p.enq
            && 0 <= DeqStepsLeft(p'.deqs[t]) < DeqStepsLeft(p.deqs[t])
  {
    hide AtBlock, RingNewEnough, KeySet, Cells, StoreValue, LookupSlot, Res, Count;
  }

  /** The enqueuer is wait-free: it always has a step, is moved by nobody else, and ends its call within
      14 steps. */
  lemma EnqueuerEnds(s: State, a: Action, pid: Pid)
    requires Inv(s) && Enabled(s, a) && pid in s.prods
    ensures Defined(s, a) && pid in Apply(s, a).prods
    ensures var e, e' := s.prods[pid].enq, Apply(s, a).prods[pid].enq;
            if a.pid == pid && a.CallEnqueue? then EnqStepsLeft(e') <= 14
            else if a.pid == pid && a.RunEnqueuer? then EnqStepsLeft(e') < EnqStepsLeft(e)
            else e' == e
    ensures s.prods[pid].enq != EIdle ==> Enabled(s, RunEnqueuer(pid, None))
  {
    StepInv(s, a);
    var p := s.prods[a.pid];
    assert LocalOk(a.pid, p, s.world);
    if a.RunEnqueuer? { EnqueuerStepsDown(a.pid, p, s.world, a.got); }
    if a.RunDequeuer? {
      assert DeqOk(p, a.thread, p.deqs[a.thread]);
      DequeuerStepsDown(p, s.world, a.thread);
    }
    hide Inv, LocalOk, EnqDefined, DeqDefined, EnqStep, DeqStep, DeqOk, DeqStepsLeft;
  }

  /** So is every dequeuer: a call that claims n elements ends within 5 n + 4 steps. */
  lemma DequeuerEnds(s: State, a: Action, pid: Pid, t: Thread)
    requires Inv(s) && Enabled(s, a) && pid in s.prods && t in s.prods[pid].deqs
    ensures Defined(s, a) && pid in Apply(s, a).prods && t in Apply(s, a).prods[pid].deqs
    ensures var pc, pc' := s.prods[pid].deqs[t], Apply(s, a).prods[pid].deqs[t];
            if a.pid == pid && a.CallDequeue? && a.thread == t then DeqStepsLeft(pc') <= 5 * a.count + 4
            else if a.pid == pid && a.RunDequeuer? && a.thread == t then 0 <= DeqStepsLeft(pc') < DeqStepsLeft(pc)
            else pc' == pc
    ensures s.prods[pid].deqs[t] != DIdle ==> Enabled(s, RunDequeuer(pid, t))
  {
    StepInv(s, a);
    var p := s.prods[a.pid];
    assert LocalOk(a.pid, p, s.world);
    if a.RunEnqueuer? { EnqueuerStepsDown(a.pid, p, s.world, a.got); }
    if a.RunDequeuer? {
      assert DeqOk(p, a.thread, p.deqs[a.thread]);
      DequeuerStepsDown(p, s.world, a.thread);
    }
    hide Inv, LocalOk, EnqDefined, DeqDefined, EnqStep, DeqStep, DeqOk;
  }

  // ----- What an enqueuer's step does to its call -----

  predicate Undoing(e: Enq) { e.ERewind? || e.EClear? }

  /** The call is past the fullness test, and its block not yet in. */
  predicate Reserved(e: Enq) {
    || e.ELoadKey? || e.ELoadValue? || e.EGrow? || e.EStoreKey? || e.EStoreTail?
    || e.EPoolLoad? || e.EPoolTake? || e.EFreeTake? || e.EAllocate? || e.EReset? || e.EStoreValue?
  }

  /** What refuses an element: 2^63 indices in use, no memory for a larger index, or none for a block
      when neither pool nor free list has one. */
  predicate Refuses(p: Producer, got: Option<Block>) {
    match p.enq
    case ETestRoom(_) => p.tail + BLOCK_SIZE - p.head >= HALF
    case EGrow(_) => got == None || |p.index.headers| > LAST_HEADER
    case EAllocate(_) => got == None
    case _ => false
  }

  /** The blocks put in, and the one reserved, stay less than 2^63 indices past the head. */
  ghost predicate Extent(p: Producer) {
    BLOCK_SIZE * |p.homes| - p.head < HALF && (Reserved(p.enq) ==> BLOCK_SIZE * (|p.homes| + 1) - p.head < HALF)
  }

  lemma RoomIs(p: Producer)
    requires TailPart(p) && CellsPart(p) && Extent(p) && p.enq.ETestRoom?
    ensures CircularLess(W(p.head), W(p.tail + BLOCK_SIZE)) <==> p.tail + BLOCK_SIZE - p.head < HALF
  {
    CircularLessWindow(p.head, p.tail + BLOCK_SIZE);
    hide W, CircularLess;
  }

  ghost predicate Outcome(p: Producer, refused: bool, p': Producer)
    requires p.enq != EIdle
  {
    if refused then !Undoing(p.enq) && (p'.enq == EIdle || Undoing(p'.enq)) && p'.sent == p.sent
    else if Undoing(p.enq) then (p'.enq == EIdle || Undoing(p'.enq)) && p'.sent == p.sent
    else !Undoing(p'.enq) && p'.sent == if p'.enq == EIdle then p.sent + [p.enq.item] else p.sent
  }

  lemma EnqueuerOutcome(pid: Pid, p: Producer, w: World, got: Option<Block>)
    requires EnqDefined(p, w) && p.enq != EIdle
    requires p.enq.ETestRoom? ==> (CircularLess(W(p.head), W(p.tail + BLOCK_SIZE)) <==> p.tail + BLOCK_SIZE - p.head < HALF)
    ensures var p' := EnqStep(pid, p, w, got).0;
            && Outcome(p, Refuses(p, got), p') && p'.head == p.head && (p'.enq != EIdle ==> p'.enq.item == p.enq.item)
            && (Reserved(p'.enq) ==> Reserved(p.enq) || (p.enq.ETestRoom? && p.tail + BLOCK_SIZE - p.head < HALF))
            && p'.homes == if p.enq.EStoreValue? then p.homes + [p.enq.block] else p.homes
  {
    hide EnqDefined, StoreKey, StoreTail, StoreValue, Grow, GrownLedger, KeyedLedger, PlacedLedger, CircularLess, W;
  }

  lemma ExtentKept(pid: Pid, p: Producer, w: World, got: Option<Block>)
    requires LocalOk(pid, p, w) && EnqDefined(p, w) && p.enq != EIdle && Extent(p)
    ensures Extent(EnqStep(pid, p, w, got).0)
  {
    if p.enq.ETestRoom? { RoomIs(p); }
    EnqueuerOutcome(pid, p, w, got);
    hide PoolOk, IndexPart, BlocksPart, EnqPart, EnqStep, Outcome, Refuses, CircularLess, W;
  }

  lemma StepExtent(s: State, a: Action, s': State, pid: Pid)
    requires Inv(s) && Step(s, a, s') && pid in s.prods && Extent(s.prods[pid])
    ensures pid in s'.prods && Extent(s'.prods[pid])
  {
    var p := s.prods[pid];
    assert LocalOk(pid, p, s.world);
    if a.pid == pid && a.RunEnqueuer? { ExtentKept(pid, p, s.world, a.got); }
    if a.pid == pid && a.RunDequeuer? {
      assert DeqOk(p, a.thread, p.deqs[a.thread]);
      DequeuerKeeps(p, s.world, a.thread);
    }
    hide Inv, LocalOk, EnqStep, DeqStep, DeqOk, EnqDefined, DeqDefined;
  }

  lemma DequeuerKeeps(p: Producer, w: World, t: Thread)
    requires DeqDefined(p, w, t)
    ensures var p' := DeqStep(p, w, t).0;
            p'.homes == p.homes && p'.head == p.head && p'.enq == p.enq && p'.sent == p.sent && p'.tail == p.tail
  {
    hide StoreValue, LookupSlot, Res, Count;
  }

  lemma {:induction false} ExtentReachable(run: seq<State>, acts: seq<Action>, i: nat, pid: Pid)
    requires Execution(run, acts) && i < |run| && pid in run[i].prods
    ensures Extent(run[i].prods[pid])
  {
    hide Inv, Apply;
    if i > 0 {
      hide Extent;
      assert Step(run[i - 1], acts[i - 1], run[i]);
      SameProducers(run[i - 1], acts[i - 1], run[i]);
      ExtentReachable(run, acts, i - 1, pid);
      Reachable(run, acts, i - 1);
      StepExtent(run[i - 1], acts[i - 1], run[i], pid);
    }
  }

  lemma SameProducers(s: State, a: Action, s': State)
    requires Step(s, a, s')
    ensures s'.prods.Keys == s.prods.Keys
  {
    hide EnqStep, DeqStep, EnqDefined, DeqDefined;
  }

  // ----- Which calls publish -----

  ghost predicate RefusedAt(s: State, a: Action, pid: Pid) {
    a.RunEnqueuer? && a.pid == pid && pid in s.prods && Refuses(s.prods[pid], a.got)
  }

  ghost predicate RefusedIn(run: seq<State>, acts: seq<Action>, i: nat, k: nat, pid: Pid)
    requires |run| == |acts| + 1 && k < |run|
  {
    exists m {:trigger RefusedAt(run[m], acts[m], pid)} | i < m < k :: RefusedAt(run[m], acts[m], pid)
  }

  /** What an enqueue that began with `sent` has come to, if anything refused it or not. */
  ghost predicate Underway(p: Producer, sent: seq<Item>, x: Item, refused: bool) {
    if p.enq == EIdle then p.sent == sent + (if refused then [] else [x])
    else p.sent == sent && p.enq.item == x && (Undoing(p.enq) <==> refused)
  }

  lemma StepUnderway(s: State, a: Action, s': State, pid: Pid, sent: seq<Item>, x: Item, refused: bool)
    requires Inv(s) && Step(s, a, s') && pid in s.prods && Extent(s.prods[pid])
    requires s.prods[pid].enq != EIdle && Underway(s.prods[pid], sent, x, refused)
    ensures pid in s'.prods && Underway(s'.prods[pid], sent, x, refused || RefusedAt(s, a, pid))
  {
    var p := s.prods[pid];
    assert LocalOk(pid, p, s.world);
    if a.pid == pid && a.RunEnqueuer? {
      if p.enq.ETestRoom? { RoomIs(p); }
      EnqueuerOutcome(pid, p, s.world, a.got);
    }
    if a.pid == pid && a.RunDequeuer? { DequeuerKeeps(p, s.world, a.thread); }
    hide Inv, LocalOk, EnqStep, DeqStep, EnqDefined, DeqDefined, Refuses, Extent, Reserved;
  }

  /** The enqueuer is in a call between the two states. */
  ghost predicate Enqueuing(run: seq<State>, i: nat, k: nat, pid: Pid) {
    k <= |run| && forall m | i < m < k :: pid in run[m].prods && run[m].prods[pid].enq != EIdle
  }

  lemma EnqueuingLess(run: seq<State>, i: nat, k: nat, pid: Pid)
    requires Enqueuing(run, i, k, pid) && i + 1 < k
    ensures Enqueuing(run, i, k - 1, pid) && pid in run[k - 1].prods && run[k - 1].prods[pid].enq != EIdle
  {
  }

  lemma {:induction false} UnderwayAt(run: seq<State>, acts: seq<Action>, i: nat, k: nat, pid: Pid, x: Item)
    requires Execution(run, acts) && i < k < |run| && acts[i] == CallEnqueue(pid, x)
    requires Enqueuing(run, i, k, pid)
    ensures pid in run[i].prods && pid in run[k].prods
    ensures Underway(run[k].prods[pid], run[i].prods[pid].sent, x, RefusedIn(run, acts, i, k, pid))
    decreases k - i
  {
    LastStep(run, acts, k);
    hide *;
    if i + 1 == k {
      CallBegins(run[i], acts[i], run[k], pid, x);
      NotYetRefused(run, acts, i, pid);
    } else {
      EnqueuingLess(run, i, k, pid);
      UnderwayAt(run, acts, i, k - 1, pid, x);
      Reachable(run, acts, k - 1);
      ExtentReachable(run, acts, k - 1, pid);
      StepUnderway(run[k - 1], acts[k - 1], run[k], pid, run[i].prods[pid].sent, x, RefusedIn(run, acts, i, k - 1, pid));
      RefusedMore(run, acts, i, k, pid);
    }
  }

  lemma LastStep(run: seq<State>, acts: seq<Action>, k: nat)
    requires Execution(run, acts) && 0 < k < |run|
    ensures |run| == |acts| + 1 && Step(run[k - 1], acts[k - 1], run[k])
  {
    hide Step, Init;
  }

  lemma NotYetRefused(run: seq<State>, acts: seq<Action>, i: nat, pid: Pid)
    requires |run| == |acts| + 1 && i < |acts|
    ensures !RefusedIn(run, acts, i, i + 1, pid)
  {
  }

  lemma CallBegins(s: State, a: Action, s': State, pid: Pid, x: Item)
    requires Step(s, a, s') && a == CallEnqueue(pid, x)
    ensures pid in s.prods && pid in s'.prods && Underway(s'.prods[pid], s.prods[pid].sent, x, false)
  {
  }

  lemma RefusedMore(run: seq<State>, acts: seq<Action>, i: nat, k: nat, pid: Pid)
    requires |run| == |acts| + 1 && i + 1 < k < |run|
    ensures RefusedIn(run, acts, i, k, pid) <==> RefusedIn(run, acts, i, k - 1, pid) || RefusedAt(run[k - 1], acts[k - 1], pid)
  {
    hide RefusedAt;
  }

  /** In every interleaving an enqueue call ends with exactly its element published, or, if and only if
      it was refused on the way - because 2^63 indices were in use, or memory ran out - with nothing
      published. */
  lemma PublishesUnlessRefused(run: seq<State>, acts: seq<Action>, i: nat, k: nat, pid: Pid, x: Item)
    requires Execution(run, acts) && i < k < |run| && acts[i] == CallEnqueue(pid, x)
    requires Enqueuing(run, i, k, pid)
    requires pid in run[k].prods && run[k].prods[pid].enq == EIdle
    ensures pid in run[i].prods
    ensures run[k].prods[pid].sent == run[i].prods[pid].sent + if RefusedIn(run, acts, i, k, pid) then [] else [x]
  {
    UnderwayAt(run, acts, i, k, pid, x);
  }

  // ----- Memory is asked for last -----

  ghost predicate PoolSpent(s: State, pid: Pid) {
    pid in s.prods && (s.prods[pid].enq.EFreeTake? || s.prods[pid].enq.EAllocate?) ==> s.world.pool.next >= s.world.pool.size
  }

  lemma PoolGoesOn(pid: Pid, p: Producer, w: World, got: Option<Block>)
    requires EnqDefined(p, w) && p.enq != EIdle
    requires p.enq.EFreeTake? || p.enq.EAllocate? ==> w.pool.next >= w.pool.size
    ensures var (p', w') := EnqStep(pid, p, w, got);
            && w'.pool.size == w.pool.size && w'.pool.next >= w.pool.next
            && (p'.enq.EFreeTake? || p'.enq.EAllocate? ==> w'.pool.next >= w'.pool.size)
            && ((p.enq.EFreeTake? || p.enq.EAllocate?) && got.Some? ==>
                  p'.enq == EReset(p.enq.item, got.value) && got.value in w'.place && w'.place[got.value] == Carried(pid))
  {
    hide EnqDefined, StoreKey, StoreTail, StoreValue, Grow, GrownLedger, KeyedLedger, PlacedLedger, CircularLess, W;
  }

  lemma StepSpent(s: State, a: Action, s': State, pid: Pid)
    requires Step(s, a, s') && PoolSpent(s, pid) && PoolSpent(s, a.pid)
    ensures PoolSpent(s', pid)
  {
    if a.RunEnqueuer? { PoolGoesOn(a.pid, s.prods[a.pid], s.world, a.got); }
    if a.RunDequeuer? {
      DequeuerKeeps(s.prods[a.pid], s.world, a.thread);
      DequeuerKeepsPool(s.prods[a.pid], s.world, a.thread);
    }
    hide EnqStep, DeqStep, EnqDefined, DeqDefined;
  }

  lemma DequeuerKeepsPool(p: Producer, w: World, t: Thread)
    requires DeqDefined(p, w, t)
    ensures var pool := DeqStep(p, w, t).1.pool; pool.next == w.pool.next && pool.size == w.pool.size
  {
    hide StoreValue, LookupSlot, Res, Count;
  }

  /** The free list is asked only when the initial pool is used up, and memory only after the free list:
      so while a block of the initial pool is unused no enqueue is refused for want of a block. */
  lemma {:induction false} PoolFirst(run: seq<State>, acts: seq<Action>, i: nat, pid: Pid)
    requires Execution(run, acts) && i < |run| && pid in run[i].prods
    requires run[i].prods[pid].enq.EFreeTake? || run[i].prods[pid].enq.EAllocate?
    ensures run[i].world.pool.next >= run[i].world.pool.size
  {
    SpentAt(run, acts, i, pid);
  }

  lemma {:induction false} SpentAt(run: seq<State>, acts: seq<Action>, i: nat, pid: Pid)
    requires Execution(run, acts) && i < |run|
    ensures PoolSpent(run[i], pid)
  {
    if i > 0 {
      hide PoolSpent, Apply;
      assert Step(run[i - 1], acts[i - 1], run[i]);
      SpentAt(run, acts, i - 1, pid);
      SpentAt(run, acts, i - 1, acts[i - 1].pid);
      StepSpent(run[i - 1], acts[i - 1], run[i], pid);
    }
  }

  // ----- A dequeue moves out all it claimed -----

  ghost predicate MovesBy(s: State, a: Action, pid: Pid, t: Thread, n: nat) {
    a.RunDequeuer? && a.pid == pid && a.thread == t && Moves(s, a, n)
  }

  ghost predicate MovedIn(run: seq<State>, acts: seq<Action>, i: nat, k: nat, pid: Pid, t: Thread, n: nat)
    requires |run| == |acts| + 1 && k < |run|
  {
    exists m {:trigger MovesBy(run[m], acts[m], pid, t, n)} | i < m < k :: MovesBy(run[m], acts[m], pid, t, n)
  }

  /** Only its own thread's move takes a claimed cell on. */
  lemma ClaimKept(s: State, a: Action, s': State, pid: Pid, t: Thread, n: nat)
    requires Inv(s) && Step(s, a, s') && pid in s.prods && n < |s.prods[pid].cells| && s.prods[pid].cells[n] == Mine(t)
    ensures pid in s'.prods && n < |s'.prods[pid].cells|
    ensures s'.prods[pid].cells[n] == Mine(t) || MovesBy(s, a, pid, t, n)
  {
    var p := s.prods[pid];
    assert LocalOk(pid, p, s.world) && CellOk(n, p.cells[n], p.head, p.deqs);
    if a.pid == pid && a.RunDequeuer? {
      assert DeqOk(p, a.thread, p.deqs[a.thread]);
      MoveTakesOwn(p, s.world, a.thread, t, n);
    }
    hide Inv, LocalOk, DeqStep, DeqDefined, DeqOk, EnqDefined, StoreKey, StoreTail, StoreValue, Grow, CircularLess, W;
  }

  lemma MoveTakesOwn(p: Producer, w: World, u: Thread, t: Thread, n: nat)
    requires DeqDefined(p, w, u) && DeqOk(p, u, p.deqs[u]) && n < |p.cells| && p.cells[n] == Mine(t)
    ensures var p' := DeqStep(p, w, u).0;
            && |p'.cells| == |p.cells| && (p'.cells[n] == Mine(t) || (u == t && p.deqs[u].DMove? && p.deqs[u].index == n))
  {
    hide StoreValue, LookupSlot, Res, AtBlock, RingNewEnough, KeySet;
  }

  lemma {:induction false} ClaimAt(run: seq<State>, acts: seq<Action>, i: nat, k: nat, pid: Pid, t: Thread, n: nat)
    requires Execution(run, acts) && i < k < |run| && acts[i].CallDequeue? && acts[i].pid == pid && acts[i].thread == t
    requires pid in run[i].prods && run[i].prods[pid].head <= n < run[i].prods[pid].head + acts[i].count
    ensures pid in run[k].prods && n < |run[k].prods[pid].cells|
    ensures run[k].prods[pid].cells[n] == Mine(t) || MovedIn(run, acts, i, k, pid, t, n)
    decreases k - i
  {
    hide Apply, Init, Inv, MovesBy, Enabled, Defined;
    assert Step(run[k - 1], acts[k - 1], run[k]);
    if i + 1 == k {
      ClaimMade(run[i], acts[i], run[k], n);
    } else {
      ClaimAt(run, acts, i, k - 1, pid, t, n);
      Reachable(run, acts, k - 1);
      SameProducers(run[k - 1], acts[k - 1], run[k]);
      StepAdvances(run[k - 1], acts[k - 1], run[k], pid);
      if run[k - 1].prods[pid].cells[n] == Mine(t) { ClaimKept(run[k - 1], acts[k - 1], run[k], pid, t, n); }
    }
  }

  lemma ClaimMade(s: State, a: Action, s': State, n: nat)
    requires Step(s, a, s') && a.CallDequeue?
    requires s.prods[a.pid].head <= n < s.prods[a.pid].head + a.count
    ensures a.pid in s'.prods && n < |s'.prods[a.pid].cells| && s'.prods[a.pid].cells[n] == Mine(a.thread)
  {
  }

  /** A dequeue call that has ended has moved out every element it claimed. */
  lemma EndedCallMovedAll(run: seq<State>, acts: seq<Action>, i: nat, k: nat, pid: Pid, t: Thread, n: nat)
    requires Execution(run, acts) && i < k < |run| && acts[i].CallDequeue? && acts[i].pid == pid && acts[i].thread == t
    requires pid in run[k].prods && t in run[k].prods[pid].deqs && run[k].prods[pid].deqs[t] == DIdle
    ensures pid in run[i].prods
    ensures run[i].prods[pid].head <= n < run[i].prods[pid].head + acts[i].count ==> MovedIn(run, acts, i, k, pid, t, n)
  {
    assert Step(run[i], acts[i], run[i + 1]);
    if run[i].prods[pid].head <= n < run[i].prods[pid].head + acts[i].count {
      ClaimAt(run, acts, i, k, pid, t, n);
      Reachable(run, acts, k);
      var p := run[k].prods[pid];
      assert LocalOk(pid, p, run[k].world) && CellOk(n, p.cells[n], p.head, p.deqs);
    }
  }
}
