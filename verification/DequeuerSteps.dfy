/** Every transition of a dequeuer keeps the producer's invariant, up to the count of the elements it
    has moved out of a block; the rest of its transitions are in BlockRecycling.

    The heart is `LookupFinds`: the ring, tail slot and key that a dequeuer has read at three different
    times still give the slot of its block, because a block keeps its entry in every ring that was
    built since it was put in, and because a ring's old keys and the current ones differ by whole
    turns of the ring. */
module DequeuerSteps {
  import opened CircularArithmetic
  import opened BlockIndex
  import opened BlockIndexInvariant
  import opened ConcurrentProducers
  import opened Options
  import opened ProducersInvariant

  // ----- What a dequeuer finds in the index -----

  /** The entry of a block not yet given back, in every ring built since it was put in. */
  lemma ValueInRing(p: Producer, h: nat, j: nat)
    requires IndexPart(p) && j < |p.homes| && Indexed(p.phases[j])
    requires p.ledger.born[j] <= h < |p.index.headers|
    ensures RingOk(p.index, h) && EntryOf(p.index, p.ledger, h, j) == p.ledger.slots[j] < |p.index.entries|
    ensures p.index.entries[p.ledger.slots[j]].value == At(p.homes[j])
    ensures j in p.ledger.live
  {
    assert RingOk(p.index, h);
    assert p.phases[j] == p.phases[j] && j in p.ledger.live;
    assert LiveAt(p.index, p.ledger, j) && Holds(p.index, p.ledger, p.homes, p.phases, j);
  }

  lemma BornInTime(p: Producer, j: nat)
    requires IndexPart(p) && j < |p.homes| && Indexed(p.phases[j])
    ensures p.ledger.born[j] <= Current(p.index)
  {
    assert p.phases[j] == p.phases[j] && j in p.ledger.live;
    assert LiveAt(p.index, p.ledger, j);
  }

  /** Whatever the tail of a ring is when a dequeuer reads it, the key there is set. */
  lemma TailKeySet(p: Producer, h: nat)
    requires IndexPart(p) && h < |p.index.headers| && |p.homes| > 0
    ensures RingOk(p.index, h) && KeySet(p.index, h, p.index.headers[h].tail)
  {
    assert RingOk(p.index, h);
    var g, l := Current(p.index), p.ledger;
    if h < g {
      assert TailKey(p.index, l, h) != INVALID_BLOCK_BASE;
    } else {
      var j := if Ahead(p.enq) then l.ins else l.ins - 1;
      assert Cong(p.index.headers[g].tail, l.origins[g] + j, CapacityAt(g));
      assert p.index.headers[g].tail == Pos(l, g, j);
      assert CurrentEntry(p.index, l, j).key == BLOCK_SIZE * j;
    }
  }

  /** From any ring, tail and key a dequeuer may have read, the arithmetic gives the slot of its block. */
  lemma LookupFinds(p: Producer, h: nat, q: nat, j: nat)
    requires IndexPart(p) && h < |p.index.headers| && KeySet(p.index, h, q)
    ensures RingOk(p.index, h)
    ensures Pos(p.ledger, h, j)
            == LookupSlot(W(BLOCK_SIZE * j), W(p.index.entries[p.index.headers[h].index[q]].key), q, CapacityAt(h))
  {
    assert RingOk(p.index, h);
    CapacityFits(h, LAST_HEADER);
    var n: int :| CapacityAt(h) * n * BLOCK_SIZE == WORD;
    assert KeyFits(p.index, p.ledger, h, q);
    LookupFindsPos(p.ledger, h, q, p.index.entries[p.index.headers[h].index[q]].key, j, n);
  }

  // ----- Frames -----

  /** The other dequeuers of a producer, when cells and phases they do not hold change. */
  lemma OthersDeqOk(p: Producer, p': Producer, t: Thread)
    requires CellsPart(p) && t in p.deqs && t in p'.deqs && p'.deqs == p.deqs[t := p'.deqs[t]]
    requires RingsExtend(p, p') && p'.ledger.born == p.ledger.born && p'.homes == p.homes
    requires |p'.homes| == |p'.phases| == |p.phases| == |p'.ledger.born| && p.head <= p'.head && |p.cells| <= |p'.cells|
    requires forall u: Thread, i | u != t && 0 <= i < |p.cells| ::
               p.cells[i] == Mine(u) || p.cells[i] == Moved(u) ==> p'.cells[i] == p.cells[i]
    requires forall u: Thread, j | u != t && 0 <= j < |p.phases| ::
               p.phases[j] == Emptied(u) || p.phases[j] == Detached(u) ==> p'.phases[j] == p.phases[j]
    ensures forall u <- p'.deqs {:trigger DeqOk(p', u, p'.deqs[u])} | u != t :: DeqOk(p', u, p'.deqs[u])
  {
    forall u <- p'.deqs | u != t ensures DeqOk(p', u, p'.deqs[u]) {
      assert DeqOk(p, u, p.deqs[u]);
      DeqFrame(p, p', u, p.deqs[u]);
    }
  }

  predicate Loading(pc: Deq) { pc.DLoadHeader? || pc.DLoadTail? || pc.DLoadKey? || pc.DLoadValue? }

  /** A step that only loads. */
  lemma LoadStep(pid: Pid, p: Producer, w: World, t: Thread, pc': Deq)
    requires LocalOk(pid, p, w) && t in p.deqs && Loading(p.deqs[t]) && (Loading(pc') || pc'.DMove?)
    requires pc'.index == p.deqs[t].index && pc'.end == p.deqs[t].end
    requires DeqOk(SetDeq(p, t, pc'), t, pc')
    ensures StepOk(pid, SetDeq(p, t, pc'), w, w)
  {
    hide PoolOk;
    var p' := SetDeq(p, t, pc');
    OthersDeqOk(p, p', t);
    forall i | 0 <= i < p'.tail ensures CellOk(i, p'.cells[i], p'.head, p'.deqs) {
      assert CellOk(i, p.cells[i], p.head, p.deqs);
    }
    forall j: nat | j < |p'.homes| ensures BlockOk(pid, p', w, j) {
      assert BlockOk(pid, p, w, j);
      BlockFrame(pid, p, w, p', w, j);
    }
    forall b <- w.place | Owned(w.place[b], pid) ensures Keeps(p', b, w.place[b]) { assert Keeps(p, b, w.place[b]); }
  }

  // ----- The loads of a lookup -----

  lemma DeqLoadHeader(pid: Pid, p: Producer, w: World, t: Thread)
    requires LocalOk(pid, p, w) && DeqDefined(p, w, t) && p.deqs[t].DLoadHeader?
    ensures StepOk(pid, DeqStep(p, w, t).0, w, DeqStep(p, w, t).1)
  {
    var pc := p.deqs[t];
    var pc' := DLoadTail(pc.index, pc.end, Current(p.index));
    assert DeqOk(p, t, pc);
    forall i {:trigger BlockOf(i)} | pc.index <= i < pc.end
      ensures BlockOf(i) < |p.ledger.born| && p.ledger.born[BlockOf(i)] <= Current(p.index)
    {
      UncountedIsLive(pid, p, w, i);
      BornInTime(p, BlockOf(i));
    }
    assert RingNewEnough(SetDeq(p, t, pc'), pc');
    LoadStep(pid, p, w, t, pc');
  }

  lemma DeqLoadTail(pid: Pid, p: Producer, w: World, t: Thread)
    requires LocalOk(pid, p, w) && DeqDefined(p, w, t) && p.deqs[t].DLoadTail?
    ensures StepOk(pid, DeqStep(p, w, t).0, w, DeqStep(p, w, t).1)
  {
    var pc := p.deqs[t];
    assert DeqOk(p, t, pc);
    assert BlockOf(pc.index) == BlockOf(pc.index);
    TailKeySet(p, pc.header);
    LoadStep(pid, p, w, t, DLoadKey(pc.index, pc.end, pc.header, p.index.headers[pc.header].tail));
  }

  lemma DeqLoadKey(pid: Pid, p: Producer, w: World, t: Thread)
    requires LocalOk(pid, p, w) && DeqDefined(p, w, t) && p.deqs[t].DLoadKey?
    ensures StepOk(pid, DeqStep(p, w, t).0, w, DeqStep(p, w, t).1)
  {
    var pc := p.deqs[t];
    assert DeqOk(p, t, pc);
    assert BlockOf(pc.index) == BlockOf(pc.index);
    LookupFinds(p, pc.header, pc.tailSlot, BlockOf(pc.index));
    LoadStep(pid, p, w, t, DLoadValue(pc.index, pc.end, pc.header, Pos(p.ledger, pc.header, BlockOf(pc.index))));
  }

  lemma DeqLoadValue(pid: Pid, p: Producer, w: World, t: Thread)
    requires LocalOk(pid, p, w) && DeqDefined(p, w, t) && p.deqs[t].DLoadValue?
    ensures StepOk(pid, DeqStep(p, w, t).0, w, DeqStep(p, w, t).1)
  {
    var pc := p.deqs[t];
    assert DeqOk(p, t, pc);
    UncountedIsLive(pid, p, w, pc.index);
    ValueInRing(p, pc.header, BlockOf(pc.index));
    LoadStep(pid, p, w, t, DMove(pc.index, pc.end, pc.header, pc.slot, p.homes[BlockOf(pc.index)], pc.index));
  }

  // ----- Moving an element out -----

  /** The producer and world after one element is moved out. */
  function AfterMoveDeq(pc: Deq): Deq
    requires pc.DMove?
  {
    if EndsRun(pc.index + 1, pc.end) then DCount(pc.index + 1, pc.end, pc.header, pc.slot, pc.block, pc.start)
    else DMove(pc.index + 1, pc.end, pc.header, pc.slot, pc.block, pc.start)
  }

  function AfterMove(p: Producer, t: Thread): Producer
    requires t in p.deqs && p.deqs[t].DMove? && p.deqs[t].index < |p.cells|
  {
    SetDeq(p, t, AfterMoveDeq(p.deqs[t])).(cells := p.cells[p.deqs[t].index := Moved(t)])
  }

  function WithStorage(w: World, b: Block, storage: Storage): World {
    w.(pool := w.pool.(blocks := w.pool.blocks[b := storage]))
  }

  lemma WithStoragePool(w: World, b: Block, storage: Storage)
    requires PoolOk(w) && b in w.pool.blocks && |storage.elements| == BLOCK_SIZE
    ensures PoolOk(WithStorage(w, b, storage))
  {
    var w' := WithStorage(w, b, storage);
    forall c <- w'.pool.blocks ensures c in w'.place && BlockShape(w', c) { assert BlockShape(w, c); }
  }

  /** The dequeuer's block is live and has the element of every index it still holds. */
  lemma HeldBlock(pid: Pid, p: Producer, w: World, t: Thread)
    requires LocalOk(pid, p, w) && t in p.deqs && (p.deqs[t].DMove? || p.deqs[t].DCount?)
    ensures DeqOk(p, t, p.deqs[t])
    ensures var pc, j := p.deqs[t], Number(p.deqs[t]);
            && j < |p.homes| && p.phases[j] == Live && BlockOk(pid, p, w, j) && pc.block == p.homes[j]
            && pc.block in w.pool.blocks && pc.block in w.place && w.place[pc.block] == Home(pid, j)
            && |w.pool.blocks[pc.block].elements| == BLOCK_SIZE
            && BLOCK_SIZE * j <= pc.start && pc.index <= BLOCK_SIZE * j + BLOCK_SIZE
  {
    var pc := p.deqs[t];
    assert DeqOk(p, t, pc);
    UncountedIsLive(pid, p, w, pc.start);
  }

  lemma MoveDeqOk(pid: Pid, p: Producer, w: World, t: Thread)
    requires LocalOk(pid, p, w) && t in p.deqs && p.deqs[t].DMove? && p.deqs[t].index < |p.cells|
    ensures DeqOk(AfterMove(p, t), t, AfterMoveDeq(p.deqs[t]))
  {
    assert DeqOk(p, t, p.deqs[t]);
  }

  lemma MoveCellsPart(pid: Pid, p: Producer, w: World, t: Thread)
    requires LocalOk(pid, p, w) && t in p.deqs && p.deqs[t].DMove? && p.deqs[t].index < |p.cells|
    ensures CellsPart(AfterMove(p, t))
  {
    var p' := AfterMove(p, t);
    assert DeqOk(p, t, p.deqs[t]);
    MoveDeqOk(pid, p, w, t);
    OthersDeqOk(p, p', t);
    forall i | 0 <= i < p'.tail ensures CellOk(i, p'.cells[i], p'.head, p'.deqs) {
      assert CellOk(i, p.cells[i], p.head, p.deqs);
    }
  }

  lemma MoveOwnBlock(pid: Pid, p: Producer, w: World, t: Thread, w': World, j: nat)
    requires LocalOk(pid, p, w) && DeqDefined(p, w, t) && p.deqs[t].DMove? && j == Number(p.deqs[t]) < |p.homes|
    requires var pc := p.deqs[t]; var storage := w.pool.blocks[pc.block];
             w' == WithStorage(w, pc.block, storage.(elements := storage.elements[pc.index % BLOCK_SIZE := None]))
    ensures BlockOk(pid, AfterMove(p, t), w', j)
  {
    var pc, p' := p.deqs[t], AfterMove(p, t);
    HeldBlock(pid, p, w, t);
    assert BlockOk(pid, p, w, j);
    hide LocalOk, IndexPart, PoolOk, OwnKept, TailPart, EnqPart, IndexOk;
    CountedSame(p.cells, p'.cells, BLOCK_SIZE * j, Filled(p.tail, j));
    assert pc.index % BLOCK_SIZE == pc.index - BLOCK_SIZE * j;
  }

  lemma MoveBlock(pid: Pid, p: Producer, w: World, t: Thread, w': World, j: nat)
    requires LocalOk(pid, p, w) && DeqDefined(p, w, t) && p.deqs[t].DMove? && j < |p.homes|
    requires var pc := p.deqs[t]; var storage := w.pool.blocks[pc.block];
             w' == WithStorage(w, pc.block, storage.(elements := storage.elements[pc.index % BLOCK_SIZE := None]))
    ensures BlockOk(pid, AfterMove(p, t), w', j)
  {
    var pc, p' := p.deqs[t], AfterMove(p, t);
    HeldBlock(pid, p, w, t);
    assert BlockOk(pid, p, w, j);
    if j == Number(pc) {
      MoveOwnBlock(pid, p, w, t, w', j);
    } else {
      hide BlockOk, IndexPart, PoolOk, OwnKept, TailPart, EnqPart, IndexOk;
      BlockFrame(pid, p, w, p', w', j);
    }
  }

  lemma DeqMove(pid: Pid, p: Producer, w: World, t: Thread)
    requires LocalOk(pid, p, w) && DeqDefined(p, w, t) && p.deqs[t].DMove?
    ensures StepOk(pid, DeqStep(p, w, t).0, w, DeqStep(p, w, t).1)
  {
    hide PoolOk, IndexOk;
    var pc, p', w' := p.deqs[t], AfterMove(p, t), DeqStep(p, w, t).1;
    HeldBlock(pid, p, w, t);
    MoveCellsPart(pid, p, w, t);
    WithStoragePool(w, pc.block, w'.pool.blocks[pc.block]);
    forall j: nat | j < |p'.homes| ensures BlockOk(pid, p', w', j) { MoveBlock(pid, p, w, t, w', j); }
    forall b <- w'.place | Owned(w'.place[b], pid) ensures Keeps(p', b, w'.place[b]) { assert Keeps(p, b, w.place[b]); }
    assert DeqStep(p, w, t).0 == p';
    if p.enq.EPublish? { MoveNotPublishing(pid, p, w, t); }
  }

  /** The element being published is not one that a dequeuer holds. */
  lemma MovesElsewhere(pid: Pid, p: Producer, w: World, t: Thread)
    requires LocalOk(pid, p, w) && t in p.deqs && p.deqs[t].DMove? && p.enq.EPublish?
    ensures p.tailBlock == Some(p.deqs[t].block) ==> p.deqs[t].index % BLOCK_SIZE != p.tail % BLOCK_SIZE
  {
    var pc, last := p.deqs[t], |p.homes| - 1;
    HeldBlock(pid, p, w, t);
    TailBlockIsLive(pid, p, w);
    assert TailPart(p) && pc.index < p.tail;
    hide LocalOk, ProducerOk, IndexPart, PoolOk, OwnKept, EnqPart;
    if pc.block == p.homes[last] {
      assert Number(pc) == last;
      assert p.tail % BLOCK_SIZE == p.tail - BLOCK_SIZE * last;
      assert pc.index % BLOCK_SIZE == pc.index - BLOCK_SIZE * last;
    }
  }

  lemma MoveNotPublishing(pid: Pid, p: Producer, w: World, t: Thread)
    requires LocalOk(pid, p, w) && DeqDefined(p, w, t) && p.deqs[t].DMove? && p.enq.EPublish?
    ensures EnqPart(pid, p, DeqStep(p, w, t).1)
  {
    MovesElsewhere(pid, p, w, t);
    assert EnqPart(pid, p, w);
    hide LocalOk, ProducerOk, IndexPart, PoolOk, OwnKept, BlockOk;
  }
}
