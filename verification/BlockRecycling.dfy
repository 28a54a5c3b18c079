/** Counting elements out of a block, and giving an emptied block back: these transitions of a
    dequeuer keep the producer's invariant too.

    The count reaches BLOCK_SIZE with the last element of the block and at no other time, so exactly
    one dequeuer goes on to clear the block's entry and to hand the block to the free list.  While it
    does, the block has left the live phase: no dequeuer holds an element of it, and the enqueuer does
    not write to it, so that nobody is left to follow the entry that is cleared. */
module BlockRecycling {
  import opened CircularArithmetic
  import opened BlockIndex
  import opened BlockIndexInvariant
  import opened ConcurrentProducers
  import opened ProducersInvariant
  import opened DequeuerSteps

  // ----- Counting -----

  /** set_empty and set_many_empty add exactly the cells that were moved. */
  lemma {:induction false} CountMore(cells: seq<Cell>, lo: nat, hi: nat, base: nat, n: nat)
    requires base <= lo <= hi <= |cells| && base + n <= |cells|
    requires forall i | lo <= i < hi :: !cells[i].Counted?
    ensures CountedIn(Count(cells, lo, hi), base, n)
         == CountedIn(cells, base, n) + (if base + n <= lo then 0 else if base + n <= hi then base + n - lo else hi - lo)
  {
    if n > 0 { CountMore(cells, lo, hi, base, n - 1); }
  }

  lemma {:induction false} AllCounted(cells: seq<Cell>, lo: nat, n: nat)
    requires lo + n <= |cells| && CountedIn(cells, lo, n) == n
    ensures forall i | lo <= i < lo + n :: cells[i] == Counted
  {
    if n > 0 { AllCounted(cells, lo, n - 1); }
  }

  /** On to the next block of the claim, if any. */
  lemma NextBlockIs(pid: Pid, p: Producer, w: World, t: Thread)
    requires ProducerOk(pid, p, w) && t in p.deqs && (p.deqs[t].DCount? || p.deqs[t].DFree?) && p.deqs[t].index > 0
    requires IsHeader(p.index, p.deqs[t].header) && p.deqs[t].index < p.deqs[t].end
    ensures var pc := p.deqs[t]; var j := Number(pc) + 1;
            && pc.index == BLOCK_SIZE * j && BlockOf(pc.index) == j < |p.homes|
            && pc.header < |p.ledger.origins|
            && p.index.headers[pc.header].capacity == CapacityAt(pc.header)
            && Res(pc.slot + 1, CapacityAt(pc.header)) == Pos(p.ledger, pc.header, j)
  {
    var pc, j := p.deqs[t], Number(p.deqs[t]);
    assert DeqOk(p, t, pc) && pc.index == BLOCK_SIZE * (j + 1);
    UncountedIsLive(pid, p, w, pc.index);
    assert BlockOf(pc.index) == j + 1 && RingOk(p.index, pc.header);
    NextPos(p.ledger, pc.header, j);
  }

  lemma NextBlockOk(pid: Pid, p: Producer, w: World, t: Thread, p': Producer)
    requires LocalOk(pid, p, w) && t in p.deqs && (p.deqs[t].DCount? || p.deqs[t].DFree?)
    requires IsHeader(p.index, p.deqs[t].header)
    requires p'.ledger == p.ledger && p'.index == p.index && p'.homes == p.homes && |p'.phases| == |p.phases|
    requires p'.head == p.head && |p'.cells| == |p.cells|
    requires forall i | p.deqs[t].index <= i < p.deqs[t].end && i < |p.cells| :: p'.cells[i] == p.cells[i]
    ensures DeqOk(p', t, NextBlock(p, p.deqs[t]))
  {
    assert DeqOk(p, t, p.deqs[t]);
    if p.deqs[t].index < p.deqs[t].end { NextBlockIs(pid, p, w, t); }
    hide LocalOk, ProducerOk, IndexPart, PoolOk, TailPart;
  }

  ghost predicate IsLast(p: Producer, w: World, pc: Deq)
    requires pc.DCount? && pc.block in w.pool.blocks
  {
    w.pool.blocks[pc.block].done + (pc.index - pc.start) == BLOCK_SIZE
  }

  lemma CountCellsPart(pid: Pid, p: Producer, w: World, t: Thread, p': Producer)
    requires LocalOk(pid, p, w) && DeqDefined(p, w, t) && p.deqs[t].DCount?
    requires p' == p.(deqs := p'.deqs, cells := Count(p.cells, p.deqs[t].start, p.deqs[t].index), phases := p'.phases)
    requires t in p'.deqs && p'.deqs == p.deqs[t := p'.deqs[t]] && DeqOk(p', t, p'.deqs[t])
    requires p'.deqs[t].DIdle? ==> p.deqs[t].index == p.deqs[t].end
    requires !p'.deqs[t].DIdle? ==> p'.deqs[t].index == p.deqs[t].index && p'.deqs[t].end == p.deqs[t].end
    requires |p'.phases| == |p.phases| && Number(p.deqs[t]) < |p.phases| && p.phases[Number(p.deqs[t])] == Live
    requires forall j | 0 <= j < |p.phases| && j != Number(p.deqs[t]) :: p'.phases[j] == p.phases[j]
    ensures CellsPart(p')
  {
    assert DeqOk(p, t, p.deqs[t]);
    OthersDeqOk(p, p', t);
    forall i | 0 <= i < p'.tail ensures CellOk(i, p'.cells[i], p'.head, p'.deqs) {
      assert CellOk(i, p.cells[i], p.head, p.deqs);
    }
  }

  /** The producer and world after a dequeuer counts its elements out of the block. */
  ghost function AfterCount(p: Producer, w: World, t: Thread): Producer
    requires DeqDefined(p, w, t) && p.deqs[t].DCount?
  {
    var pc := p.deqs[t];
    var p' := p.(cells := Count(p.cells, pc.start, pc.index));
    if IsLast(p, w, pc)
    then SetDeq(p', t, DClear(pc.index, pc.end, pc.header, pc.slot, pc.block))
           .(phases := SetPhase(p.phases, BlockOf(pc.start), Emptied(t)))
    else SetDeq(p', t, NextBlock(p, pc))
  }

  lemma CountDeqOk(pid: Pid, p: Producer, w: World, t: Thread)
    requires LocalOk(pid, p, w) && DeqDefined(p, w, t) && p.deqs[t].DCount?
    ensures DeqOk(AfterCount(p, w, t), t, AfterCount(p, w, t).deqs[t])
  {
    var p', pc := AfterCount(p, w, t), p.deqs[t];
    assert DeqOk(p, t, pc);
    HeldBlock(pid, p, w, t);
    hide IndexPart, OwnKept, PoolOk, BlockOk, BlocksPart, EnqPart;
    if !IsLast(p, w, pc) { NextBlockOk(pid, p, w, t, p'); }
  }

  /** The count reaches BLOCK_SIZE exactly when the last element of the block is out. */
  lemma CountThisBlock(pid: Pid, p: Producer, w: World, t: Thread)
    requires LocalOk(pid, p, w) && DeqDefined(p, w, t) && p.deqs[t].DCount?
    ensures var pc, j := p.deqs[t], BlockOf(p.deqs[t].start);
            var cells := Count(p.cells, pc.start, pc.index);
            && w.pool.blocks[pc.block].done + (pc.index - pc.start) == CountedIn(cells, BLOCK_SIZE * j, Filled(p.tail, j))
            && (IsLast(p, w, pc) ==> BLOCK_SIZE * j + BLOCK_SIZE <= p.tail
                                     && forall i | BLOCK_SIZE * j <= i < BLOCK_SIZE * j + BLOCK_SIZE :: cells[i] == Counted)
  {
    var pc, j := p.deqs[t], BlockOf(p.deqs[t].start);
    assert DeqOk(p, t, pc);
    HeldBlock(pid, p, w, t);
    CountMore(p.cells, pc.start, pc.index, BLOCK_SIZE * j, Filled(p.tail, j));
    if IsLast(p, w, pc) {
      AllCounted(Count(p.cells, pc.start, pc.index), BLOCK_SIZE * j, BLOCK_SIZE);
    }
  }

  /** The world after the counter store. */
  function AfterCountWorld(w: World, pc: Deq): World
    requires pc.DCount? && pc.block in w.pool.blocks && pc.start <= pc.index
  {
    WithStorage(w, pc.block, w.pool.blocks[pc.block].(done := w.pool.blocks[pc.block].done + (pc.index - pc.start)))
  }

  lemma CountLastBlock(pid: Pid, p: Producer, w: World, t: Thread)
    requires LocalOk(pid, p, w) && DeqDefined(p, w, t) && p.deqs[t].DCount? && IsLast(p, w, p.deqs[t])
    ensures Number(p.deqs[t]) < |p.homes| && BlockOk(pid, AfterCount(p, w, t), AfterCountWorld(w, p.deqs[t]), Number(p.deqs[t]))
  {
    HeldBlock(pid, p, w, t);
    CountThisBlock(pid, p, w, t);
    assert SpentBlock(AfterCount(p, w, t), Number(p.deqs[t]));
  }

  lemma LiveKept(p: Producer, p': Producer, storage: Storage, storage': Storage, j: nat)
    requires |p.cells| == |p.sent| == p.tail && LiveStorage(p, storage, j)
    requires p'.tail == p.tail && p'.sent == p.sent && |p'.cells| == |p.cells|
    requires forall i | 0 <= i < |p.cells| && (p'.cells[i].Waiting? || p'.cells[i].Mine?) :: p.cells[i] == p'.cells[i]
    requires storage'.elements == storage.elements
    requires storage'.done == CountedIn(p'.cells, BLOCK_SIZE * j, Filled(p.tail, j)) < BLOCK_SIZE
    ensures LiveStorage(p', storage', j)
  {
  }

  lemma CountLiveBlock(pid: Pid, p: Producer, w: World, t: Thread)
    requires LocalOk(pid, p, w) && DeqDefined(p, w, t) && p.deqs[t].DCount? && !IsLast(p, w, p.deqs[t])
    ensures Number(p.deqs[t]) < |p.homes| && BlockOk(pid, AfterCount(p, w, t), AfterCountWorld(w, p.deqs[t]), Number(p.deqs[t]))
  {
    var j, p', w' := Number(p.deqs[t]), AfterCount(p, w, t), AfterCountWorld(w, p.deqs[t]);
    HeldBlock(pid, p, w, t);
    CountThisBlock(pid, p, w, t);
    LiveKept(p, p', w.pool.blocks[p.homes[j]], w'.pool.blocks[p.homes[j]], j);
  }

  lemma CountOtherBlock(pid: Pid, p: Producer, w: World, t: Thread, j: nat)
    requires LocalOk(pid, p, w) && DeqDefined(p, w, t) && p.deqs[t].DCount? && j < |p.homes| && j != Number(p.deqs[t])
    ensures BlockOk(pid, AfterCount(p, w, t), AfterCountWorld(w, p.deqs[t]), j)
  {
    hide IndexPart;
    HeldBlock(pid, p, w, t);
    assert BlockOk(pid, p, w, j);
    BlockFrame(pid, p, w, AfterCount(p, w, t), AfterCountWorld(w, p.deqs[t]), j);
  }

  lemma CountIndexPart(p: Producer, p': Producer, j: nat, ph: Phase)
    requires IndexPart(p) && j < |p.phases| && Indexed(p.phases[j]) == Indexed(ph)
    requires p'.phases == p.phases[j := ph]
    requires p'.index == p.index && p'.ledger == p.ledger && p'.homes == p.homes && p'.enq == p.enq
    ensures IndexPart(p')
  {
    forall i | 0 <= i < p.ledger.ins ensures i in p'.ledger.live <==> Indexed(p'.phases[i]) {
      assert i in p.ledger.live <==> Indexed(p.phases[i]);
    }
    forall i: nat | i < |p'.homes| ensures Holds(p'.index, p'.ledger, p'.homes, p'.phases, i) {
      assert Holds(p.index, p.ledger, p.homes, p.phases, i);
    }
  }

  lemma CountProducer(pid: Pid, p: Producer, w: World, t: Thread)
    requires LocalOk(pid, p, w) && DeqDefined(p, w, t) && p.deqs[t].DCount?
    ensures IndexPart(AfterCount(p, w, t)) && CellsPart(AfterCount(p, w, t))
  {
    var pc, p' := p.deqs[t], AfterCount(p, w, t);
    HeldBlock(pid, p, w, t);
    CountDeqOk(pid, p, w, t);
    CountCellsPart(pid, p, w, t, p');
    CountIndexPart(p, p', Number(pc), p'.phases[Number(pc)]);
  }

  lemma CountWorld(pid: Pid, p: Producer, w: World, t: Thread)
    requires LocalOk(pid, p, w) && DeqDefined(p, w, t) && p.deqs[t].DCount?
    ensures var w' := AfterCountWorld(w, p.deqs[t]);
            PoolOk(w') && OwnKept(pid, AfterCount(p, w, t), w') && OthersKept(pid, w, w')
  {
    var pc, p', w' := p.deqs[t], AfterCount(p, w, t), AfterCountWorld(w, p.deqs[t]);
    HeldBlock(pid, p, w, t);
    WithStoragePool(w, pc.block, w'.pool.blocks[pc.block]);
    forall b <- w'.place | Owned(w'.place[b], pid) ensures Keeps(p', b, w'.place[b]) { assert Keeps(p, b, w.place[b]); }
  }

  lemma CountBlock(pid: Pid, p: Producer, w: World, t: Thread, j: nat)
    requires LocalOk(pid, p, w) && DeqDefined(p, w, t) && p.deqs[t].DCount? && j < |p.homes|
    ensures BlockOk(pid, AfterCount(p, w, t), AfterCountWorld(w, p.deqs[t]), j)
  {
    HeldBlock(pid, p, w, t);
    hide BlockOk, IndexPart, PoolOk, OwnKept;
    if j != Number(p.deqs[t]) { CountOtherBlock(pid, p, w, t, j); }
    else if IsLast(p, w, p.deqs[t]) { CountLastBlock(pid, p, w, t); }
    else { CountLiveBlock(pid, p, w, t); }
  }

  lemma CountEnqPart(pid: Pid, p: Producer, w: World, p': Producer, pc: Deq)
    requires EnqPart(pid, p, w) && pc.DCount? && pc.start <= pc.index && p'.enq == p.enq && p'.tail == p.tail
             && p'.tailBlock == p.tailBlock
    requires pc.block in w.pool.blocks && pc.block in w.place && w.place[pc.block].Home?
    ensures EnqPart(pid, p', AfterCountWorld(w, pc))
  {
  }

  lemma CountParts(pid: Pid, p: Producer, w: World, t: Thread)
    requires LocalOk(pid, p, w) && DeqDefined(p, w, t) && p.deqs[t].DCount?
    ensures var p' := AfterCount(p, w, t);
            p'.homes == p.homes && |p'.phases| == |p.phases| && TailPart(p') && EnqPart(pid, p', AfterCountWorld(w, p.deqs[t]))
  {
    HeldBlock(pid, p, w, t);
    assert TailPart(p) && EnqPart(pid, p, w);
    CountEnqPart(pid, p, w, AfterCount(p, w, t), p.deqs[t]);
    hide LocalOk, BlockOk, IndexPart, CellsPart, PoolOk, OwnKept, EnqPart;
  }

  lemma CountBlocks(pid: Pid, p: Producer, w: World, t: Thread)
    requires LocalOk(pid, p, w) && DeqDefined(p, w, t) && p.deqs[t].DCount?
    ensures ProducerOk(pid, AfterCount(p, w, t), AfterCountWorld(w, p.deqs[t]))
  {
    var p', w' := AfterCount(p, w, t), AfterCountWorld(w, p.deqs[t]);
    CountProducer(pid, p, w, t);
    CountParts(pid, p, w, t);
    hide BlockOk, LocalOk, TailPart, EnqPart, AfterCount, AfterCountWorld;
    forall j: nat | j < |p'.homes| ensures BlockOk(pid, p', w', j) { CountBlock(pid, p, w, t, j); }
  }

  lemma DeqCount(pid: Pid, p: Producer, w: World, t: Thread)
    requires LocalOk(pid, p, w) && DeqDefined(p, w, t) && p.deqs[t].DCount?
    ensures StepOk(pid, DeqStep(p, w, t).0, w, DeqStep(p, w, t).1)
  {
    assert DeqStep(p, w, t) == (AfterCount(p, w, t), AfterCountWorld(w, p.deqs[t]));
    CountBlocks(pid, p, w, t);
    CountWorld(pid, p, w, t);
  }

  // ----- Clearing the index entry -----

  /** The block of a dequeuer that is clearing or freeing it. */
  lemma SpentBlockIs(pid: Pid, p: Producer, w: World, t: Thread)
    requires LocalOk(pid, p, w) && t in p.deqs && (p.deqs[t].DClear? || p.deqs[t].DFree?)
    ensures p.deqs[t].index > 0 && DeqOk(p, t, p.deqs[t])
    ensures var pc, j := p.deqs[t], Number(p.deqs[t]);
            && j < |p.homes| && BlockOk(pid, p, w, j) && pc.block == p.homes[j]
            && p.phases[j] == (if pc.DClear? then Emptied(t) else Detached(t))
            && pc.block in w.place && w.place[pc.block] == Home(pid, j) && pc.block in w.pool.blocks
  {
    assert DeqOk(p, t, p.deqs[t]);
    assert BlockOk(pid, p, w, Number(p.deqs[t]));
  }

  /** The producer once the entry is null. */
  ghost function AfterClear(p: Producer, t: Thread): Producer
    requires t in p.deqs && p.deqs[t].DClear? && p.deqs[t].index > 0
    requires Number(p.deqs[t]) < |p.phases| == |p.ledger.slots| && p.ledger.slots[Number(p.deqs[t])] < |p.index.entries|
  {
    var pc, j := p.deqs[t], Number(p.deqs[t]);
    SetDeq(p, t, DFree(pc.index, pc.end, pc.header, pc.slot, pc.block))
      .(index := StoreValue(p.index, p.ledger.slots[j], Null),
        phases := p.phases[j := Detached(t)], ledger := p.ledger.(live := p.ledger.live - {j}))
  }

  lemma ClearLives(p: Producer, t: Thread, j: nat)
    requires IndexPart(p) && t in p.deqs && p.deqs[t].DClear? && p.deqs[t].index > 0 && Number(p.deqs[t]) == j < |p.phases|
    requires Indexed(p.phases[j]) && p.ledger.slots[j] < |p.index.entries|
    ensures var p' := AfterClear(p, t);
            && IndexOk(p'.index, p'.ledger, p'.ledger.ins + (if Ahead(p'.enq) then 1 else 0), IsPending(p'.enq))
            && EnqFacts(p'.index, p'.ledger, p'.enq)
  {
    assert j in p.ledger.live;
    ClearOk(p.index, p.ledger, p.ledger.ins + if Ahead(p.enq) then 1 else 0, IsPending(p.enq), j);
    hide HoldsAll, LivesOk, KeysFit, Aligned, Window, OldTailsSet;
  }

  lemma ClearHolds(p: Producer, t: Thread, j: nat)
    requires IndexPart(p) && t in p.deqs && p.deqs[t].DClear? && p.deqs[t].index > 0 && Number(p.deqs[t]) == j < |p.phases|
    requires Indexed(p.phases[j]) && p.ledger.slots[j] < |p.index.entries|
    ensures var p' := AfterClear(p, t);
            |p'.homes| == |p'.phases| == |p'.ledger.slots|
            && forall i: nat | i < |p'.homes| :: Holds(p'.index, p'.ledger, p'.homes, p'.phases, i)
  {
    var l, p' := p.ledger, AfterClear(p, t);
    assert j in l.live;
    forall i: nat | i < |p'.homes| ensures Holds(p'.index, p'.ledger, p'.homes, p'.phases, i) {
      assert Holds(p.index, l, p.homes, p.phases, i) && (i in l.live <==> Indexed(p.phases[i]));
      if i in l.live && i != j { LivesDistinct(p.index, l, i, j); }
    }
  }

  lemma ClearIndexPart(p: Producer, t: Thread, j: nat)
    requires IndexPart(p) && t in p.deqs && p.deqs[t].DClear? && p.deqs[t].index > 0 && Number(p.deqs[t]) == j < |p.phases|
    requires Indexed(p.phases[j]) && p.ledger.slots[j] < |p.index.entries|
    ensures IndexPart(AfterClear(p, t))
  {
    var l, p' := p.ledger, AfterClear(p, t);
    ClearLives(p, t, j);
    ClearHolds(p, t, j);
    hide IndexOk, EnqFacts, Holds, Rings;
    forall i | 0 <= i < l.ins ensures i in p'.ledger.live <==> Indexed(p'.phases[i]) {
      assert i in l.live <==> Indexed(p.phases[i]);
    }
  }

  lemma ClearProducer(pid: Pid, p: Producer, w: World, t: Thread)
    requires LocalOk(pid, p, w) && t in p.deqs && p.deqs[t].DClear?
    requires p.deqs[t].index > 0 && Number(p.deqs[t]) < |p.phases| && p.ledger.slots[Number(p.deqs[t])] < |p.index.entries|
    requires CellsPart(AfterClear(p, t)) && IndexPart(AfterClear(p, t))
    ensures ProducerOk(pid, AfterClear(p, t), w)
  {
    var p', j := AfterClear(p, t), Number(p.deqs[t]);
    SpentBlockIs(pid, p, w, t);
    forall i: nat | i < |p'.homes| ensures BlockOk(pid, p', w, i) {
      assert BlockOk(pid, p, w, i);
      if i != j { BlockFrame(pid, p, w, p', w, i); }
    }
  }

  lemma ClearCellsPart(pid: Pid, p: Producer, w: World, t: Thread)
    requires LocalOk(pid, p, w) && t in p.deqs && p.deqs[t].DClear?
    requires p.deqs[t].index > 0 && Number(p.deqs[t]) < |p.phases| && p.ledger.slots[Number(p.deqs[t])] < |p.index.entries|
    ensures CellsPart(AfterClear(p, t))
  {
    hide PoolOk;
    var p' := AfterClear(p, t);
    SpentBlockIs(pid, p, w, t);
    OthersDeqOk(p, p', t);
    forall i | 0 <= i < p'.tail ensures CellOk(i, p'.cells[i], p'.head, p'.deqs) {
      assert CellOk(i, p.cells[i], p.head, p.deqs);
    }
  }

  lemma DeqClear(pid: Pid, p: Producer, w: World, t: Thread)
    requires LocalOk(pid, p, w) && DeqDefined(p, w, t) && p.deqs[t].DClear?
    ensures StepOk(pid, DeqStep(p, w, t).0, w, DeqStep(p, w, t).1)
  {
    hide IndexPart;
    var pc, j := p.deqs[t], Number(p.deqs[t]);
    SpentBlockIs(pid, p, w, t);
    ValueInRing(p, pc.header, j);
    var p' := AfterClear(p, t);
    ClearIndexPart(p, t, j);
    ClearCellsPart(pid, p, w, t);
    ClearProducer(pid, p, w, t);
    forall b <- w.place | Owned(w.place[b], pid) ensures Keeps(p', b, w.place[b]) { assert Keeps(p, b, w.place[b]); }
    assert DeqStep(p, w, t).0 == p';
  }

  // ----- Giving the block back -----

  ghost function AfterFree(p: Producer, t: Thread): Producer
    requires t in p.deqs && p.deqs[t].DFree? && p.deqs[t].index > 0 && Number(p.deqs[t]) < |p.phases|
    requires IsHeader(p.index, p.deqs[t].header)
  {
    SetDeq(p, t, NextBlock(p, p.deqs[t])).(phases := p.phases[Number(p.deqs[t]) := Recycled])
  }

  lemma FreeCellsPart(pid: Pid, p: Producer, w: World, t: Thread)
    requires LocalOk(pid, p, w) && t in p.deqs && p.deqs[t].DFree? && p.deqs[t].index > 0 && Number(p.deqs[t]) < |p.phases|
    requires IsHeader(p.index, p.deqs[t].header)
    ensures CellsPart(AfterFree(p, t))
  {
    var p' := AfterFree(p, t);
    SpentBlockIs(pid, p, w, t);
    NextBlockOk(pid, p, w, t, p');
    OthersDeqOk(p, p', t);
    forall i | 0 <= i < p'.tail ensures CellOk(i, p'.cells[i], p'.head, p'.deqs) {
      assert CellOk(i, p.cells[i], p.head, p.deqs);
    }
  }

  /** The world once the block is on the free list. */
  function AfterFreeWorld(w: World, b: Block): World { World(w.pool.(free := w.pool.free + {b}), w.place[b := Free]) }

  lemma FreeBlock(pid: Pid, p: Producer, w: World, t: Thread, i: nat)
    requires LocalOk(pid, p, w) && DeqDefined(p, w, t) && p.deqs[t].DFree? && i < |p.homes|
    ensures BlockOk(pid, AfterFree(p, t), AfterFreeWorld(w, p.deqs[t].block), i)
  {
    SpentBlockIs(pid, p, w, t);
    assert BlockOk(pid, p, w, i);
    if i != Number(p.deqs[t]) { BlockFrame(pid, p, w, AfterFree(p, t), AfterFreeWorld(w, p.deqs[t].block), i); }
  }

  lemma FreeWorld(pid: Pid, p: Producer, w: World, t: Thread)
    requires LocalOk(pid, p, w) && DeqDefined(p, w, t) && p.deqs[t].DFree?
    ensures var w' := AfterFreeWorld(w, p.deqs[t].block);
            PoolOk(w') && OwnKept(pid, AfterFree(p, t), w') && OthersKept(pid, w, w')
  {
    var p', w' := AfterFree(p, t), AfterFreeWorld(w, p.deqs[t].block);
    SpentBlockIs(pid, p, w, t);
    assert w'.place.Keys == w.place.Keys;
    forall c <- w'.pool.blocks ensures c in w'.place && BlockShape(w', c) { assert BlockShape(w, c); }
    forall b <- w'.place | Owned(w'.place[b], pid) ensures Keeps(p', b, w'.place[b]) { assert Keeps(p, b, w.place[b]); }
  }

  lemma DeqFree(pid: Pid, p: Producer, w: World, t: Thread)
    requires LocalOk(pid, p, w) && DeqDefined(p, w, t) && p.deqs[t].DFree?
    ensures StepOk(pid, DeqStep(p, w, t).0, w, DeqStep(p, w, t).1)
  {
    var p', w' := AfterFree(p, t), AfterFreeWorld(w, p.deqs[t].block);
    assert DeqStep(p, w, t) == (p', w');
    SpentBlockIs(pid, p, w, t);
    FreeCellsPart(pid, p, w, t);
    CountIndexPart(p, p', Number(p.deqs[t]), Recycled);
    FreeWorld(pid, p, w, t);
    forall i: nat | i < |p'.homes| ensures BlockOk(pid, p', w', i) { FreeBlock(pid, p, w, t, i); }
  }

  // ----- All of them -----

  lemma DequeuerStep(pid: Pid, p: Producer, w: World, t: Thread)
    requires LocalOk(pid, p, w) && DeqDefined(p, w, t) && !p.deqs[t].DIdle?
    ensures StepOk(pid, DeqStep(p, w, t).0, w, DeqStep(p, w, t).1)
  {
    match p.deqs[t]
    case DLoadHeader(_, _) => DeqLoadHeader(pid, p, w, t);
    case DLoadTail(_, _, _) => DeqLoadTail(pid, p, w, t);
    case DLoadKey(_, _, _, _) => DeqLoadKey(pid, p, w, t);
    case DLoadValue(_, _, _, _) => DeqLoadValue(pid, p, w, t);
    case DMove(_, _, _, _, _, _) => DeqMove(pid, p, w, t);
    case DCount(_, _, _, _, _, _) => DeqCount(pid, p, w, t);
    case DClear(_, _, _, _, _) => DeqClear(pid, p, w, t);
    case DFree(_, _, _, _, _) => DeqFree(pid, p, w, t);
  }
}
