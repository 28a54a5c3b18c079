module ProducersSafety {
  /* Safety of the concurrent producers over whole runs: stable lookups, every published element
     moved out once and unchanged, block conservation, one recycling per fill. */

  import opened CircularArithmetic
  import opened BlockIndex
  import opened BlockIndexInvariant
  import opened ConcurrentProducers
  import opened ProducersInvariant
  import opened EnqueuerSteps
  import opened DequeuerSteps
  import opened BlockRecycling
  import opened Options

  // ----- Every transition -----

  /** A dequeue that holds a claim on head .. head + n starts. */
  lemma DequeueCall(pid: Pid, p: Producer, w: World, t: Thread, n: nat)
    requires LocalOk(pid, p, w) && t in p.deqs && p.deqs[t] == DIdle && n > 0 && p.head + n <= p.tail
    ensures |p.cells| == p.tail
    ensures var p' := SetDeq(p, t, DLoadHeader(p.head, p.head + n)).(head := p.head + n, cells := Take(p.cells, p.head, p.head + n, t));
            StepOk(pid, p', w, w)
  {
    hide PoolOk, AtBlock;
    var p' := SetDeq(p, t, DLoadHeader(p.head, p.head + n)).(head := p.head + n, cells := Take(p.cells, p.head, p.head + n, t));
    forall i | p.head <= i < p.tail ensures p.cells[i] == Waiting {
      assert CellOk(i, p.cells[i], p.head, p.deqs);
    }
    OthersDeqOk(p, p', t);
    forall i | 0 <= i < p'.tail ensures CellOk(i, p'.cells[i], p'.head, p'.deqs) {
      assert CellOk(i, p.cells[i], p.head, p.deqs);
    }
    forall j: nat | j < |p'.homes| ensures BlockOk(pid, p', w, j) { TakeKeepsBlock(pid, p, w, p', j); }
    forall b <- w.place | Owned(w.place[b], pid) ensures Keeps(p', b, w.place[b]) { assert Keeps(p, b, w.place[b]); }
  }

  lemma TakeKeepsBlock(pid: Pid, p: Producer, w: World, p': Producer, j: nat)
    requires ProducerOk(pid, p, w) && j < |p.homes|
    requires |p'.cells| == |p'.sent| == p'.tail == p.tail && p'.sent == p.sent && p'.homes == p.homes && p'.phases == p.phases
    requires forall i | 0 <= i < |p.cells| && p'.cells[i] != p.cells[i] :: p.cells[i].Waiting? && p'.cells[i].Mine?
    requires forall t | Clears(p, t, j) :: Clears(p', t, j)
    requires forall t | Frees(p, t, j) :: Frees(p', t, j)
    ensures BlockOk(pid, p', w, j)
  {
    assert BlockOk(pid, p, w, j);
    if p.phases[j] == Live {
      CountedSame(p.cells, p'.cells, BLOCK_SIZE * j, Filled(p.tail, j));
    }
  }

  /** No dequeuer dereferences anything that is not there. */
  lemma DequeuerDefined(pid: Pid, p: Producer, w: World, t: Thread)
    requires LocalOk(pid, p, w) && t in p.deqs
    ensures DeqDefined(p, w, t)
  {
    var pc := p.deqs[t];
    assert DeqOk(p, t, pc);
    if !pc.DIdle? && !pc.DLoadHeader? { assert RingOk(p.index, pc.header); }
    if pc.DLoadValue? {
      UncountedIsLive(pid, p, w, pc.index);
      ValueInRing(p, pc.header, BlockOf(pc.index));
    }
    if pc.DMove? || pc.DCount? { HeldBlock(pid, p, w, t); }
    if pc.DClear? || pc.DFree? { SpentBlockIs(pid, p, w, t); }
  }

  /** Every transition is defined where the invariant holds, and keeps it. */
  lemma StepInv(s: State, a: Action)
    requires Inv(s) && Enabled(s, a)
    ensures Defined(s, a) && Inv(Apply(s, a))
  {
    hide LocalOk, StepOk;
    var pid, p, w := a.pid, s.prods[a.pid], s.world;
    assert LocalOk(pid, p, w);
    match a
    case CallEnqueue(_, x) =>
      EnqueueCall(pid, p, w, x);
      Compose(s, pid, Local(s, a).0, Local(s, a).1);
    case RunEnqueuer(_, got) =>
      EnqueuerDefined(pid, p, w);
      EnqueuerStep(pid, p, w, got);
      Compose(s, pid, Local(s, a).0, Local(s, a).1);
    case CallDequeue(_, t, n) =>
      DequeueCall(pid, p, w, t, n);
      Compose(s, pid, Local(s, a).0, Local(s, a).1);
    case RunDequeuer(_, t) =>
      DequeuerDefined(pid, p, w, t);
      DequeuerStep(pid, p, w, t);
      Compose(s, pid, Local(s, a).0, Local(s, a).1);
  }

  // ----- Runs -----

  predicate NewProducer(p: Producer) {
    && p == Producer(0, 0, None, Initial(), EIdle, p.deqs, Ledger([0], 0, 0, 0, [], [], {}), [], [], [], [])
    && forall t <- p.deqs :: p.deqs[t] == DIdle
  }

  ghost predicate Init(s: State) {
    && (forall pid <- s.prods :: NewProducer(s.prods[pid]))
    && var pool := s.world.pool;
    && pool.next == 0 && pool.free == {} && s.world.place.Keys == pool.blocks.Keys
    && (forall b: Block :: b in pool.blocks <==> b < pool.size)
    && (forall b <- pool.blocks :: |pool.blocks[b].elements| == BLOCK_SIZE && s.world.place[b] == InPool)
  }

  ghost predicate Step(s: State, a: Action, s': State) {
    Enabled(s, a) && Defined(s, a) && s' == Apply(s, a)
  }

  ghost predicate Execution(run: seq<State>, acts: seq<Action>) {
    && |run| == |acts| + 1
    && Init(run[0])
    && forall i | 0 <= i < |acts| :: Step(run[i], acts[i], run[i + 1])
  }

  lemma InitInv(s: State)
    requires Init(s)
    ensures Inv(s)
  {
    forall b <- s.world.pool.blocks ensures b in s.world.place && BlockShape(s.world, b) {}
    forall pid <- s.prods ensures LocalOk(pid, s.prods[pid], s.world) { InitialOk(); }
  }

  lemma {:induction false} Reachable(run: seq<State>, acts: seq<Action>, i: nat)
    requires Execution(run, acts) && i < |run|
    ensures Inv(run[i])
  {
    if i == 0 {
      InitInv(run[0]);
    } else {
      Reachable(run, acts, i - 1);
      assert Step(run[i - 1], acts[i - 1], run[i]);
      StepInv(run[i - 1], acts[i - 1]);
    }
  }

  /** No reachable state has a thread about to follow a pointer that is not there. */
  lemma AccessesDefined(run: seq<State>, acts: seq<Action>, i: nat, a: Action)
    requires Execution(run, acts) && i < |run| && Enabled(run[i], a)
    ensures Defined(run[i], a)
  {
    Reachable(run, acts, i);
    StepInv(run[i], a);
  }

  // ----- Lookups -----

  /** The asserts in get_block_index_index_for_index: whatever header, tail and key the dequeuer read,
      and whatever happened since, its slot is keyed by the base of its block and has the block. */
  lemma LookupIsStable(run: seq<State>, acts: seq<Action>, i: nat, pid: Pid, t: Thread)
    requires Execution(run, acts) && i < |run| && pid in run[i].prods && t in run[i].prods[pid].deqs
    requires run[i].prods[pid].deqs[t].DLoadValue?
    ensures var p := run[i].prods[pid]; var pc := p.deqs[t];
            && IsHeader(p.index, pc.header) && pc.slot < p.index.headers[pc.header].capacity
            && BlockOf(pc.index) < |p.homes|
            && p.index.entries[Slot(p.index, pc.header, pc.slot)]
                 == Entry(BLOCK_SIZE * BlockOf(pc.index), At(p.homes[BlockOf(pc.index)]))
  {
    Reachable(run, acts, i);
    var p, w := run[i].prods[pid], run[i].world;
    var pc := p.deqs[t];
    assert LocalOk(pid, p, w) && DeqOk(p, t, pc);
    var j := BlockOf(pc.index);
    UncountedIsLive(pid, p, w, pc.index);
    ValueInRing(p, pc.header, j);
    KeyIsExact(p, j);
  }

  lemma KeyIsExact(p: Producer, j: nat)
    requires IndexPart(p) && j < |p.homes| && Indexed(p.phases[j])
    ensures p.ledger.slots[j] < |p.index.entries| && p.index.entries[p.ledger.slots[j]].key == BLOCK_SIZE * j
  {
    BornInTime(p, j);
    ValueInRing(p, Current(p.index), j);
    assert LiveAt(p.index, p.ledger, j);
    assert CurrentEntry(p.index, p.ledger, j).key == BLOCK_SIZE * j;
  }

  // ----- Elements -----

  /** The transition moves out the element with the index. */
  predicate Moves(s: State, a: Action, i: nat) {
    && a.RunDequeuer? && a.pid in s.prods && a.thread in s.prods[a.pid].deqs
    && var pc := s.prods[a.pid].deqs[a.thread];
    pc.DMove? && pc.index == i
  }

  /** FIFO content: the dequeuer that holds index n moves out the n-th element ever published. */
  lemma MovesWhatWasSent(run: seq<State>, acts: seq<Action>, i: nat, n: nat)
    requires Execution(run, acts) && i < |acts| && Moves(run[i], acts[i], n)
    ensures var s := run[i]; var p := s.prods[acts[i].pid]; var b := p.deqs[acts[i].thread].block;
            && n < |p.sent| == |p.cells| && b in s.world.pool.blocks && |s.world.pool.blocks[b].elements| == BLOCK_SIZE
            && s.world.pool.blocks[b].elements[n % BLOCK_SIZE] == Some(p.sent[n])
            && p.cells[n] == Mine(acts[i].thread)
  {
    Reachable(run, acts, i);
    var pid, t, s := acts[i].pid, acts[i].thread, run[i];
    var p := s.prods[pid];
    assert LocalOk(pid, p, s.world);
    HeldBlock(pid, p, s.world, t);
    assert p.cells[n] == Mine(t);
    assert n % BLOCK_SIZE == n - BLOCK_SIZE * Number(p.deqs[t]);
  }

  function CellRank(c: Cell): nat { match c case Waiting => 0 case Mine(_) => 1 case Moved(_) => 2 case Counted => 3 }
  function PhaseRank(ph: Phase): nat { match ph case Live => 0 case Emptied(_) => 1 case Detached(_) => 2 case Recycled => 3 }

  ghost predicate Advances(p: Producer, p': Producer) {
    && |p.cells| <= |p'.cells| && |p.phases| <= |p'.phases| && IsPrefix(p.sent, p'.sent) && IsPrefix(p.homes, p'.homes)
    && (forall i {:trigger p'.cells[i]} | 0 <= i < |p.cells| :: CellRank(p.cells[i]) <= CellRank(p'.cells[i]))
    && (forall j {:trigger p'.phases[j]} | 0 <= j < |p.phases| :: PhaseRank(p.phases[j]) <= PhaseRank(p'.phases[j]))
  }

  lemma DequeuerAdvances(pid: Pid, p: Producer, w: World, t: Thread)
    requires LocalOk(pid, p, w) && DeqDefined(p, w, t)
    ensures Advances(p, DeqStep(p, w, t).0)
  {
    hide IndexPart, PoolOk;
    assert DeqOk(p, t, p.deqs[t]);
    if p.deqs[t].DCount? { CountAdvances(pid, p, w, t); }
    else if p.deqs[t].DClear? || p.deqs[t].DFree? { SpentBlockIs(pid, p, w, t); }
  }

  lemma CountAdvances(pid: Pid, p: Producer, w: World, t: Thread)
    requires LocalOk(pid, p, w) && DeqDefined(p, w, t) && p.deqs[t].DCount?
    ensures Advances(p, DeqStep(p, w, t).0)
  {
    hide IndexPart;
    HeldBlock(pid, p, w, t);
    assert DeqStep(p, w, t).0 == AfterCount(p, w, t);
  }

  lemma StepAdvances(s: State, a: Action, s': State, pid: Pid)
    requires Inv(s) && Step(s, a, s') && pid in s.prods
    ensures pid in s'.prods && Advances(s.prods[pid], s'.prods[pid])
  {
    hide IndexPart, BlocksPart, EnqPart, TailPart, PoolOk, OwnKept;
    var p := s.prods[pid];
    if a.pid == pid {
      assert LocalOk(pid, p, s.world);
      if a.RunDequeuer? { DequeuerAdvances(pid, p, s.world, a.thread); }
      if a.CallDequeue? {
        forall i | p.head <= i < p.tail ensures p.cells[i] == Waiting { assert CellOk(i, p.cells[i], p.head, p.deqs); }
      }
    }
  }

  lemma AdvancesFurther(p: Producer, q: Producer, r: Producer)
    requires Advances(p, q) && Advances(q, r)
    ensures Advances(p, r)
  {
    forall k | 0 <= k < |p.cells| ensures CellRank(p.cells[k]) <= CellRank(r.cells[k]) {
      assert CellRank(p.cells[k]) <= CellRank(q.cells[k]);
    }
    forall k | 0 <= k < |p.phases| ensures PhaseRank(p.phases[k]) <= PhaseRank(r.phases[k]) {
      assert PhaseRank(p.phases[k]) <= PhaseRank(q.phases[k]);
    }
  }

  lemma AdvancesSelf(p: Producer)
    ensures Advances(p, p)
  {
  }

  lemma {:induction false} RunAdvances(run: seq<State>, acts: seq<Action>, i: nat, j: nat, pid: Pid)
    requires Execution(run, acts) && i <= j < |run| && pid in run[i].prods
    ensures pid in run[j].prods && Advances(run[i].prods[pid], run[j].prods[pid])
    decreases j - i
  {
    hide Step, Inv, Advances, Init;
    if i == j { AdvancesSelf(run[i].prods[pid]); }
    if i < j {
      RunAdvances(run, acts, i, j - 1, pid);
      Reachable(run, acts, j - 1);
      assert Step(run[j - 1], acts[j - 1], run[j]);
      StepAdvances(run[j - 1], acts[j - 1], run[j], pid);
      AdvancesFurther(run[i].prods[pid], run[j - 1].prods[pid], run[j].prods[pid]);
    }
  }

  /** No element is moved out twice, by whatever threads. */
  lemma MovedOnce(run: seq<State>, acts: seq<Action>, i: nat, j: nat, n: nat)
    requires Execution(run, acts) && i < j < |acts| && acts[i].pid == acts[j].pid
    requires Moves(run[i], acts[i], n)
    ensures !Moves(run[j], acts[j], n)
  {
    if Moves(run[j], acts[j], n) {
      MovesWhatWasSent(run, acts, i, n);
      MovesWhatWasSent(run, acts, j, n);
      assert Step(run[i], acts[i], run[i + 1]);
      var p := run[i + 1].prods[acts[i].pid];
      assert p.cells[n].Moved?;
      RunAdvances(run, acts, i + 1, j, acts[i].pid);
      assert false;
    }
  }

  // ----- Blocks -----

  /** Block number j of the producer is the one whose element count the transition completes:
      set_empty or set_many_empty returns true. */
  ghost predicate Completes(s: State, a: Action, j: nat) {
    && a.RunDequeuer? && a.pid in s.prods && a.thread in s.prods[a.pid].deqs
    && var pc := s.prods[a.pid].deqs[a.thread];
    pc.DCount? && pc.block in s.world.pool.blocks && IsLast(s.prods[a.pid], s.world, pc) && Number(pc) == j
  }

  /** set_empty returns true only when all BLOCK_SIZE elements of the block have been moved out. */
  lemma CompletesWhenAllMoved(run: seq<State>, acts: seq<Action>, i: nat, j: nat)
    requires Execution(run, acts) && i < |acts| && Completes(run[i], acts[i], j)
    ensures var p, p' := run[i].prods[acts[i].pid], run[i + 1].prods[acts[i].pid];
            && j < |p.phases| && p.phases[j] == Live && j < |p'.phases| && p'.phases[j] == Emptied(acts[i].thread)
            && BLOCK_SIZE * j + BLOCK_SIZE <= |p.cells|
            && forall n | BLOCK_SIZE * j <= n < BLOCK_SIZE * j + BLOCK_SIZE ::
                     p.cells[n] == Counted || p.cells[n] == Moved(acts[i].thread)
  {
    hide IndexPart, TailPart, EnqPart;
    Reachable(run, acts, i);
    assert Step(run[i], acts[i], run[i + 1]);
    var pid, p, t := acts[i].pid, run[i].prods[acts[i].pid], acts[i].thread;
    assert LocalOk(pid, p, run[i].world);
    HeldBlock(pid, p, run[i].world, t);
    CountThisBlock(pid, p, run[i].world, t);
  }

  /** And it returns true once per fill. */
  lemma CompletesOnce(run: seq<State>, acts: seq<Action>, i: nat, k: nat, j: nat)
    requires Execution(run, acts) && i < k < |acts| && acts[i].pid == acts[k].pid
    requires Completes(run[i], acts[i], j)
    ensures !Completes(run[k], acts[k], j)
  {
    if Completes(run[k], acts[k], j) {
      CompletesWhenAllMoved(run, acts, i, j);
      CompletesWhenAllMoved(run, acts, k, j);
      RunAdvances(run, acts, i + 1, k, acts[i].pid);
      assert false;
    }
  }

  /** It is never missed: a block is live exactly until its last element is counted out. */
  lemma LiveUntilCounted(run: seq<State>, acts: seq<Action>, i: nat, pid: Pid, j: nat)
    requires Execution(run, acts) && i < |run| && pid in run[i].prods && j < |run[i].prods[pid].homes|
    ensures var p := run[i].prods[pid];
            && |p.phases| == |p.homes|
            && (p.phases[j] == Live <==>
                 !(BLOCK_SIZE * j + BLOCK_SIZE <= |p.cells|
                   && forall n | BLOCK_SIZE * j <= n < BLOCK_SIZE * j + BLOCK_SIZE :: p.cells[n] == Counted))
  {
    Reachable(run, acts, i);
    var p, w := run[i].prods[pid], run[i].world;
    assert LocalOk(pid, p, w) && BlockOk(pid, p, w, j);
    if p.phases[j] == Live && BLOCK_SIZE * j + BLOCK_SIZE <= |p.cells|
       && forall n | BLOCK_SIZE * j <= n < BLOCK_SIZE * j + BLOCK_SIZE :: p.cells[n] == Counted {
      CountedAll(p.cells, BLOCK_SIZE * j, BLOCK_SIZE);
    }
  }

  lemma {:induction false} CountedAll(cells: seq<Cell>, lo: nat, n: nat)
    requires lo + n <= |cells| && forall i | lo <= i < lo + n :: cells[i] == Counted
    ensures CountedIn(cells, lo, n) == n
  {
    if n > 0 { CountedAll(cells, lo, n - 1); }
  }

  /** Where a block physically is. */
  ghost predicate IsAt(s: State, b: Block, place: Place) {
    match place
    case InPool => s.world.pool.next <= b < s.world.pool.size
    case Free => b in s.world.pool.free
    case Carried(pid) => pid in s.prods && (s.prods[pid].enq.EReset? || s.prods[pid].enq.EStoreValue?)
      && s.prods[pid].enq.block == b
    case Home(pid, j) => pid in s.prods && |s.prods[pid].homes| == |s.prods[pid].phases| && j < |s.prods[pid].homes|
                         && s.prods[pid].homes[j] == b && s.prods[pid].phases[j] != Recycled
  }

  /** Block conservation: in every reachable state every block is in exactly one place - the rest of
      the initial pool, the free list, an enqueuer's hands, or one fill of one producer. */
  lemma BlockConservation(run: seq<State>, acts: seq<Action>, i: nat, b: Block)
    requires Execution(run, acts) && i < |run| && b in run[i].world.pool.blocks
    ensures exists place :: IsAt(run[i], b, place) && forall other :: IsAt(run[i], b, other) ==> other == place
  {
    hide IndexPart;
    Reachable(run, acts, i);
    var s := run[i];
    var place := s.world.place[b];
    assert BlockShape(s.world, b) && HasOwner(s.prods, place);
    if place.Home? || place.Carried? {
      assert LocalOk(place.pid, s.prods[place.pid], s.world) && Keeps(s.prods[place.pid], b, place);
    }
    assert IsAt(s, b, place);
    forall other | IsAt(s, b, other) ensures other == place {
      if other.Home? || other.Carried? {
        assert LocalOk(other.pid, s.prods[other.pid], s.world);
        if other.Home? { assert BlockOk(other.pid, s.prods[other.pid], s.world, other.number); }
      }
    }
  }

  /** A tail block that was given back is never written: an element only ever goes into the live
      block that the producer put in last. */
  lemma WritesGoToLiveBlock(run: seq<State>, acts: seq<Action>, i: nat, pid: Pid)
    requires Execution(run, acts) && i < |run| && pid in run[i].prods && run[i].prods[pid].enq.EWrite?
    ensures var p := run[i].prods[pid];
            && |p.phases| == |p.homes| > 0 && p.tailBlock == Some(p.homes[|p.homes| - 1])
            && p.phases[|p.homes| - 1] == Live && IsAt(run[i], p.tailBlock.value, Home(pid, |p.homes| - 1))
            && BlockOf(p.tail) == |p.homes| - 1
  {
    Reachable(run, acts, i);
    var p := run[i].prods[pid];
    assert LocalOk(pid, p, run[i].world);
    TailBlockIsLive(pid, p, run[i].world);
  }
}
