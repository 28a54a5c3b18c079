/** Every transition of an enqueuer keeps the producer's invariant.

    There is a lemma for each access of `EnqStep`: the loads, the growth of the index, the stores of key
    and tail and their undoing, the taking of a block from each of its three sources, the reset of the
    block's counter, its placing in the index, the construction of the element and its publication.
    `EnqueuerStep` gathers them, and `EnqueuerDefined` shows that each is possible. */
module EnqueuerSteps {
  import opened CircularArithmetic
  import opened BlockIndex
  import opened BlockIndexInvariant
  import opened ConcurrentProducers
  import opened Options
  import opened ProducersInvariant

  // ----- Enqueuer steps on the index -----

  /** The slot after the tail holds the entry of the next block. */
  lemma NextEntryIs(p: Producer)
    requires IndexPart(p)
    ensures HasRing(p) && !Ahead(p.enq) ==> NextEntry(p) == EntryOf(p.index, p.ledger, Current(p.index), p.ledger.ins)
    ensures HasRing(p)
  {
    assert RingOk(p.index, Current(p.index));
    if !Ahead(p.enq) { NextSlotIs(p.index, p.ledger, p.ledger.ins); }
  }

  /** While the tail is ahead, it is on the entry of the block about to be put in. */
  lemma TailEntryIs(p: Producer)
    requires IndexPart(p) && Ahead(p.enq)
    ensures HasRing(p) && p.index.headers[Current(p.index)].tail < p.index.headers[Current(p.index)].capacity
    ensures TailEntry(p) == EntryOf(p.index, p.ledger, Current(p.index), p.ledger.ins)
  {
    var g := Current(p.index);
    assert RingOk(p.index, g);
    assert Cong(p.index.headers[g].tail, p.ledger.origins[g] + p.ledger.ins, CapacityAt(g));
  }

  /** The loads of an enqueue. */
  lemma EnqLoad(pid: Pid, p: Producer, w: World, got: Option<Block>)
    requires ProducerOk(pid, p, w) && EnqDefined(p, w) && EnqEnabled(p, w, got)
    requires p.enq.ETestRoom? || p.enq.ELoadKey? || p.enq.ELoadValue? || p.enq.EPoolLoad?
    ensures ProducerOk(pid, EnqStep(pid, p, w, got).0, w) && EnqStep(pid, p, w, got).1 == w
  {
    NextEntryIs(p);
    var p' := EnqStep(pid, p, w, got).0;
    assert p' == p.(enq := p'.enq);
    assert Ahead(p'.enq) == Ahead(p.enq) && IsPending(p'.enq) == IsPending(p.enq);
    if p'.enq.EGrow? { FullRing(p.index, p.ledger); }
    IndexOnly(pid, p, w, p');
  }

  lemma EnqGrow(pid: Pid, p: Producer, w: World, got: Option<Block>)
    requires ProducerOk(pid, p, w) && EnqDefined(p, w) && p.enq.EGrow?
    ensures ProducerOk(pid, EnqStep(pid, p, w, got).0, w) && EnqStep(pid, p, w, got).1 == w
  {
    if got.Some? && Current(p.index) < LAST_HEADER {
      EnqGrown(pid, p, w);
    } else {
      IndexOnly(pid, p, w, p.(enq := EIdle));
    }
  }

  function AfterGrow(p: Producer, ix: Index, l: Ledger): Producer
    requires p.enq.EGrow?
  {
    p.(enq := EStoreKey(p.enq.item), index := ix, ledger := l)
  }

  lemma EnqGrown(pid: Pid, p: Producer, w: World)
    requires ProducerOk(pid, p, w) && HasRing(p) && p.enq.EGrow? && Current(p.index) < LAST_HEADER
    ensures ProducerOk(pid, AfterGrow(p, Grow(p.index), Grown(p.index, p.ledger)), w)
  {
    GrowExtends(p);
    GrowCore(p);
    IndexOnly(pid, p, w, AfterGrow(p, Grow(p.index), Grown(p.index, p.ledger)));
  }

  lemma GrowExtends(p: Producer)
    requires IndexPart(p) && p.enq.EGrow? && HasRing(p)
    ensures RingsExtend(p, AfterGrow(p, Grow(p.index), Grown(p.index, p.ledger)))
  {
  }

  lemma GrowCore(p: Producer)
    requires IndexPart(p) && p.enq.EGrow? && HasRing(p) && Current(p.index) < LAST_HEADER
    ensures IndexCore(Grow(p.index), Grown(p.index, p.ledger), p.homes, p.phases, false, false)
    ensures SlotFree(CurrentEntry(Grow(p.index), Grown(p.index, p.ledger), p.ledger.ins))
  {
    GrowOk(p.index, p.ledger);
    HoldsKept(p.index, p.ledger, p.homes, p.phases, Grow(p.index), Grown(p.index, p.ledger));
  }

  lemma EnqStoreKey(pid: Pid, p: Producer, w: World, got: Option<Block>)
    requires ProducerOk(pid, p, w) && EnqDefined(p, w) && p.enq.EStoreKey?
    ensures ProducerOk(pid, EnqStep(pid, p, w, got).0, w) && EnqStep(pid, p, w, got).1 == w
  {
    hide PoolOk;
    NextEntryIs(p);
    StoreKeyCore(p);
    IndexOnly(pid, p, w, p.(enq := EStoreTail(p.enq.item), index := StoreKey(p.index, NextEntry(p), p.tail),
                            ledger := Keyed(p.index, p.ledger)));
  }

  lemma StoreKeyCore(p: Producer)
    requires IndexPart(p) && p.enq.EStoreKey? && HasRing(p) && p.tail == BLOCK_SIZE * p.ledger.ins
    ensures IndexCore(StoreKey(p.index, NextEntry(p), p.tail), Keyed(p.index, p.ledger), p.homes, p.phases, false, true)
  {
    NextEntryIs(p);
    StoreKeyOk(p.index, p.ledger);
    HoldsKept(p.index, p.ledger, p.homes, p.phases, StoreKey(p.index, NextEntry(p), p.tail), Keyed(p.index, p.ledger));
  }

  lemma EnqStoreTail(pid: Pid, p: Producer, w: World, got: Option<Block>)
    requires ProducerOk(pid, p, w) && EnqDefined(p, w) && p.enq.EStoreTail?
    ensures ProducerOk(pid, EnqStep(pid, p, w, got).0, w) && EnqStep(pid, p, w, got).1 == w
  {
    AdvanceTailOk(p.index, p.ledger, p.ledger.ins, true);
    HoldsKept(p.index, p.ledger, p.homes, p.phases, StoreTail(p.index, NextSlot(p.index)), p.ledger);
    IndexOnly(pid, p, w, p.(enq := EPoolLoad(p.enq.item), index := StoreTail(p.index, NextSlot(p.index))));
  }

  lemma EnqRewind(pid: Pid, p: Producer, w: World, got: Option<Block>)
    requires ProducerOk(pid, p, w) && EnqDefined(p, w) && p.enq.ERewind?
    ensures ProducerOk(pid, EnqStep(pid, p, w, got).0, w) && EnqStep(pid, p, w, got).1 == w
  {
    RewindTailOk(p.index, p.ledger, p.ledger.ins, true);
    HoldsKept(p.index, p.ledger, p.homes, p.phases, StoreTail(p.index, RewoundTail(p.index)), p.ledger);
    IndexOnly(pid, p, w, p.(enq := EClear(p.enq.item), index := StoreTail(p.index, RewoundTail(p.index))));
  }

  lemma EnqClear(pid: Pid, p: Producer, w: World, got: Option<Block>)
    requires ProducerOk(pid, p, w) && EnqDefined(p, w) && p.enq.EClear?
    ensures ProducerOk(pid, EnqStep(pid, p, w, got).0, w) && EnqStep(pid, p, w, got).1 == w
  {
    hide PoolOk;
    NextEntryIs(p);
    var p', e := EnqStep(pid, p, w, got).0, NextEntry(p);
    PendingNotLive(p);
    StoreNullOk(p.index, p.ledger, p.ledger.ins, true, false, e);
    HoldsKept(p.index, p.ledger, p.homes, p.phases, StoreValue(p.index, e, Null), p.ledger);
    IndexOnly(pid, p, w, p');
  }

  /** The entry of a pending block is nobody else's. */
  lemma PendingNotLive(p: Producer)
    requires IndexPart(p) && IsPending(p.enq)
    ensures forall j <- p.ledger.live :: j < |p.ledger.slots| &&
              p.ledger.slots[j] != EntryOf(p.index, p.ledger, Current(p.index), p.ledger.ins)
  {
    forall j <- p.ledger.live
      ensures j < |p.ledger.slots| && p.ledger.slots[j] != EntryOf(p.index, p.ledger, Current(p.index), p.ledger.ins)
    {
      assert LiveAt(p.index, p.ledger, j);
      assert EntryOf(p.index, p.ledger, Current(p.index), j) == p.ledger.slots[j];
      EntriesDistinct(p.index, p.ledger, j, p.ledger.ins);
    }
  }

  /** The steps above touch neither blocks nor places. */
  lemma IndexStepOk(pid: Pid, p: Producer, w: World, p': Producer)
    requires LocalOk(pid, p, w) && ProducerOk(pid, p', w)
    requires !p.enq.EReset? && !p.enq.EStoreValue? && p'.homes == p.homes && p'.phases == p.phases
    ensures StepOk(pid, p', w, w)
  {
    forall b <- w.place | Owned(w.place[b], pid) ensures Keeps(p', b, w.place[b]) {
      assert Keeps(p, b, w.place[b]);
    }
  }

  // ----- Taking a block -----

  /** The enqueuer gets a block that no producer had. */
  lemma TakeBlock(pid: Pid, p: Producer, w: World, w': World, b: Block)
    requires LocalOk(pid, p, w) && PoolOk(w') && (p.enq.EPoolTake? || p.enq.EFreeTake? || p.enq.EAllocate?)
    requires b !in w.place || w.place[b] == InPool || w.place[b] == Free
    requires w'.place == w.place[b := Carried(pid)]
    requires forall c <- w.pool.blocks | c != b :: c in w'.pool.blocks && w'.pool.blocks[c] == w.pool.blocks[c]
    ensures StepOk(pid, p.(enq := EReset(p.enq.item, b)), w, w')
  {
    hide EnqPart, BlocksPart, LiveStorage;
    var p' := p.(enq := EReset(p.enq.item, b));
    WorldFrame(pid, p, w, w');
    assert b in w'.place && BlockShape(w', b);
    IndexOnly(pid, p, w', p');
    forall c <- w'.place | Owned(w'.place[c], pid) ensures Keeps(p', c, w'.place[c]) {
      if c != b { assert Keeps(p, c, w.place[c]); }
    }
  }

  lemma EnqPoolTake(pid: Pid, p: Producer, w: World, got: Option<Block>)
    requires LocalOk(pid, p, w) && EnqDefined(p, w) && p.enq.EPoolTake?
    ensures StepOk(pid, EnqStep(pid, p, w, got).0, w, EnqStep(pid, p, w, got).1)
  {
    var w' := EnqStep(pid, p, w, got).1;
    forall b <- w'.pool.blocks ensures b in w'.place && BlockShape(w', b) { assert BlockShape(w, b); }
    if w.pool.next < w.pool.size {
      assert BlockShape(w, w.pool.next);
      TakeBlock(pid, p, w, w', w.pool.next);
    } else {
      var p' := p.(enq := EFreeTake(p.enq.item));
      IndexOnly(pid, p, w, p');
      IndexStepOk(pid, p, w, p');
      WorldFrame(pid, p', w, w');
    }
  }

  lemma EnqFreeTake(pid: Pid, p: Producer, w: World, got: Option<Block>)
    requires LocalOk(pid, p, w) && EnqDefined(p, w) && p.enq.EFreeTake? && EnqEnabled(p, w, got)
    ensures StepOk(pid, EnqStep(pid, p, w, got).0, w, EnqStep(pid, p, w, got).1)
  {
    var w' := EnqStep(pid, p, w, got).1;
    if got.Some? {
      assert BlockShape(w, got.value);
      forall b <- w'.pool.blocks ensures b in w'.place && BlockShape(w', b) { assert BlockShape(w, b); }
      TakeBlock(pid, p, w, w', got.value);
    } else {
      var p' := p.(enq := EAllocate(p.enq.item));
      IndexOnly(pid, p, w, p');
      IndexStepOk(pid, p, w, p');
    }
  }

  lemma EnqAllocate(pid: Pid, p: Producer, w: World, got: Option<Block>)
    requires LocalOk(pid, p, w) && EnqDefined(p, w) && p.enq.EAllocate? && EnqEnabled(p, w, got)
    ensures StepOk(pid, EnqStep(pid, p, w, got).0, w, EnqStep(pid, p, w, got).1)
  {
    var w' := EnqStep(pid, p, w, got).1;
    if got.Some? {
      forall b <- w'.pool.blocks ensures b in w'.place && BlockShape(w', b) {
        if b != got.value { assert BlockShape(w, b); }
      }
      TakeBlock(pid, p, w, w', got.value);
    } else {
      var p' := p.(enq := ERewind(p.enq.item));
      IndexOnly(pid, p, w, p');
      IndexStepOk(pid, p, w, p');
    }
  }

  // ----- Putting it in -----

  /** A step that changes one block's storage but not its place. */
  lemma PoolKept(w: World, b: Block, storage: Storage)
    requires PoolOk(w) && b in w.pool.blocks && |storage.elements| == BLOCK_SIZE
    ensures PoolOk(w.(pool := w.pool.(blocks := w.pool.blocks[b := storage])))
  {
    var w' := w.(pool := w.pool.(blocks := w.pool.blocks[b := storage]));
    forall c <- w'.pool.blocks ensures c in w'.place && BlockShape(w', c) { assert BlockShape(w, c); }
  }

  lemma EnqReset(pid: Pid, p: Producer, w: World, got: Option<Block>)
    requires LocalOk(pid, p, w) && EnqDefined(p, w) && p.enq.EReset?
    ensures StepOk(pid, EnqStep(pid, p, w, got).0, w, EnqStep(pid, p, w, got).1)
  {
    var w', b := EnqStep(pid, p, w, got).1, p.enq.block;
    PoolKept(w, b, w.pool.blocks[b].(done := 0));
    var p' := p.(enq := EStoreValue(p.enq.item, b));
    WorldFrame(pid, p, w, w');
    IndexOnly(pid, p, w', p');
    forall c <- w'.place | Owned(w'.place[c], pid) ensures Keeps(p', c, w'.place[c]) { assert Keeps(p, c, w.place[c]); }
  }

  /** The producer once its new block is in the index. */
  ghost function AfterPlace(p: Producer): Producer
    requires IndexPart(p) && p.enq.EStoreValue?
  {
    var b := p.enq.block;
    var e := EntryOf(p.index, p.ledger, Current(p.index), p.ledger.ins);
    p.(enq := EWrite(p.enq.item), tailBlock := Some(b), index := StoreValue(p.index, e, At(b)),
       ledger := Placed(p.index, p.ledger), homes := p.homes + [b], phases := p.phases + [Live])
  }

  lemma PlaceCore(p: Producer)
    requires IndexPart(p) && p.enq.EStoreValue?
    ensures IndexPart(AfterPlace(p))
  {
    var p', l := AfterPlace(p), p.ledger;
    PlaceOk(p.index, l, p.enq.block);
    PendingNotLive(p);
    forall j: nat | j < |p'.homes| ensures Holds(p'.index, p'.ledger, p'.homes, p'.phases, j) {
      if j < |p.homes| { assert Holds(p.index, l, p.homes, p.phases, j) && (j in l.live <==> Indexed(p.phases[j])); }
    }
  }

  lemma PlaceProducer(pid: Pid, p: Producer, w: World, w': World)
    requires LocalOk(pid, p, w) && p.enq.EStoreValue?
    requires w' == w.(place := w.place[p.enq.block := Home(pid, |p.homes|)])
    ensures ProducerOk(pid, AfterPlace(p), w')
  {
    var p', b := AfterPlace(p), p.enq.block;
    PlaceCore(p);
    CellsKept(p, p');
    forall j: nat | j < |p'.homes| ensures BlockOk(pid, p', w', j) {
      if j < |p.homes| {
        assert BlockOk(pid, p, w, j);
        BlockFrame(pid, p, w, p', w', j);
      }
    }
  }

  lemma EnqStoreValue(pid: Pid, p: Producer, w: World, got: Option<Block>)
    requires LocalOk(pid, p, w) && EnqDefined(p, w) && p.enq.EStoreValue?
    ensures StepOk(pid, EnqStep(pid, p, w, got).0, w, EnqStep(pid, p, w, got).1)
  {
    TailEntryIs(p);
    var w' := EnqStep(pid, p, w, got).1;
    PlaceProducer(pid, p, w, w');
    var p', b := AfterPlace(p), p.enq.block;
    assert EnqStep(pid, p, w, got).0 == p';
    forall c <- w'.pool.blocks ensures c in w'.place && BlockShape(w', c) { assert BlockShape(w, c); }
    forall c <- w'.place | Owned(w'.place[c], pid) ensures Keeps(p', c, w'.place[c]) {
      if c != b { assert Keeps(p, c, w.place[c]); }
    }
  }

  // ----- Writing and publishing the element -----

  /** The world once the element is in the tail block. */
  function AfterWrite(p: Producer, w: World): World
    requires p.enq.EWrite? && p.tailBlock.Some? && p.tailBlock.value in w.pool.blocks
    requires |w.pool.blocks[p.tailBlock.value].elements| == BLOCK_SIZE
  {
    var b := p.tailBlock.value;
    var elements := w.pool.blocks[b].elements[p.tail % BLOCK_SIZE := Some(p.enq.item)];
    w.(pool := w.pool.(blocks := w.pool.blocks[b := w.pool.blocks[b].(elements := elements)]))
  }

  lemma WriteBlock(pid: Pid, p: Producer, w: World, j: nat)
    requires ProducerOk(pid, p, w) && EnqDefined(p, w) && p.enq.EWrite? && j < |p.homes|
    ensures BlockOk(pid, p.(enq := EPublish(p.enq.item)), AfterWrite(p, w), j)
  {
    TailBlockIsLive(pid, p, w);
    assert BlockOk(pid, p, w, j);
    hide ProducerOk, IndexPart, EnqPart, PoolOk, SpentBlock;
    if j < |p.homes| - 1 {
      BlockFrame(pid, p, w, p.(enq := EPublish(p.enq.item)), AfterWrite(p, w), j);
    } else {
      assert p.tail % BLOCK_SIZE == p.tail - BLOCK_SIZE * j;
    }
  }

  lemma EnqWrite(pid: Pid, p: Producer, w: World, got: Option<Block>)
    requires LocalOk(pid, p, w) && EnqDefined(p, w) && p.enq.EWrite?
    ensures StepOk(pid, EnqStep(pid, p, w, got).0, w, EnqStep(pid, p, w, got).1)
  {
    hide PoolOk;
    TailBlockIsLive(pid, p, w);
    var p', w', b := p.(enq := EPublish(p.enq.item)), AfterWrite(p, w), p.tailBlock.value;
    PoolKept(w, b, w'.pool.blocks[b]);
    forall j: nat | j < |p'.homes| ensures BlockOk(pid, p', w', j) { WriteBlock(pid, p, w, j); }
    CellsKept(p, p');
    forall c <- w'.place | Owned(w'.place[c], pid) ensures Keeps(p', c, w'.place[c]) { assert Keeps(p, c, w.place[c]); }
  }

  /** The producer once the element is published. */
  function AfterPublish(p: Producer): Producer
    requires p.enq.EPublish?
  {
    p.(enq := EIdle, tail := p.tail + 1, cells := p.cells + [Waiting], sent := p.sent + [p.enq.item])
  }

  lemma PublishTailBlock(p: Producer, storage: Storage, j: nat)
    requires p.enq.EPublish? && |p.cells| == |p.sent| == p.tail
    requires LiveStorage(p, storage, j) && BLOCK_SIZE * j <= p.tail < BLOCK_SIZE * j + BLOCK_SIZE
    requires storage.elements[p.tail % BLOCK_SIZE] == Some(p.enq.item)
    ensures LiveStorage(AfterPublish(p), storage, j)
  {
    var p' := AfterPublish(p);
    CountedSame(p.cells, p'.cells, BLOCK_SIZE * j, Filled(p.tail, j));
    assert p.tail % BLOCK_SIZE == p.tail - BLOCK_SIZE * j;
  }

  lemma PublishBlock(pid: Pid, p: Producer, w: World, j: nat)
    requires ProducerOk(pid, p, w) && p.enq.EPublish? && j < |p.homes|
    ensures BlockOk(pid, AfterPublish(p), w, j)
  {
    var p' := AfterPublish(p);
    assert BlockOk(pid, p, w, j);
    if j < |p.homes| - 1 {
      hide PoolOk, SpentBlock, BlockOk, IndexPart;
      BlockFrame(pid, p, w, p', w, j);
    } else {
      TailBlockIsLive(pid, p, w);
      hide LiveStorage, PoolOk, SpentBlock, IndexPart;
      PublishTailBlock(p, w.pool.blocks[p.homes[j]], j);
    }
  }

  lemma EnqPublish(pid: Pid, p: Producer, w: World, got: Option<Block>)
    requires LocalOk(pid, p, w) && EnqDefined(p, w) && p.enq.EPublish?
    ensures StepOk(pid, EnqStep(pid, p, w, got).0, w, EnqStep(pid, p, w, got).1)
  {
    var p' := AfterPublish(p);
    TailBlockIsLive(pid, p, w);
    CellsKept(p, p');
    forall j: nat | j < |p'.homes| ensures BlockOk(pid, p', w, j) { PublishBlock(pid, p, w, j); }
    forall c <- w.place | Owned(w.place[c], pid) ensures Keeps(p', c, w.place[c]) { assert Keeps(p, c, w.place[c]); }
  }

  // ----- All of them -----

  lemma EnqueuerIndexStep(pid: Pid, p: Producer, w: World, got: Option<Block>)
    requires LocalOk(pid, p, w) && EnqDefined(p, w) && EnqEnabled(p, w, got)
    requires p.enq.ETestRoom? || p.enq.ELoadKey? || p.enq.ELoadValue? || p.enq.EPoolLoad? || p.enq.EGrow?
             || p.enq.EStoreKey? || p.enq.EStoreTail? || p.enq.ERewind? || p.enq.EClear?
    ensures StepOk(pid, EnqStep(pid, p, w, got).0, w, EnqStep(pid, p, w, got).1)
  {
    hide IndexPart;
    if p.enq.EGrow? { EnqGrow(pid, p, w, got); }
    else if p.enq.EStoreKey? { EnqStoreKey(pid, p, w, got); }
    else if p.enq.EStoreTail? { EnqStoreTail(pid, p, w, got); }
    else if p.enq.ERewind? { EnqRewind(pid, p, w, got); }
    else if p.enq.EClear? { EnqClear(pid, p, w, got); }
    else { EnqLoad(pid, p, w, got); }
    IndexStepOk(pid, p, w, EnqStep(pid, p, w, got).0);
  }

  lemma EnqueuerStep(pid: Pid, p: Producer, w: World, got: Option<Block>)
    requires LocalOk(pid, p, w) && EnqDefined(p, w) && EnqEnabled(p, w, got)
    ensures StepOk(pid, EnqStep(pid, p, w, got).0, w, EnqStep(pid, p, w, got).1)
  {
    if p.enq.EPoolTake? { EnqPoolTake(pid, p, w, got); }
    else if p.enq.EFreeTake? { EnqFreeTake(pid, p, w, got); }
    else if p.enq.EAllocate? { EnqAllocate(pid, p, w, got); }
    else if p.enq.EReset? { EnqReset(pid, p, w, got); }
    else if p.enq.EStoreValue? { EnqStoreValue(pid, p, w, got); }
    else if p.enq.EWrite? { EnqWrite(pid, p, w, got); }
    else if p.enq.EPublish? { EnqPublish(pid, p, w, got); }
    else { EnqueuerIndexStep(pid, p, w, got); }
  }

  lemma EnqueueCall(pid: Pid, p: Producer, w: World, x: Item)
    requires LocalOk(pid, p, w) && p.enq.EIdle?
    ensures StepOk(pid, p.(enq := if p.tail % BLOCK_SIZE == 0 then ETestRoom(x) else EWrite(x)), w, w)
  {
    var p' := p.(enq := if p.tail % BLOCK_SIZE == 0 then ETestRoom(x) else EWrite(x));
    assert TailPart(p');
    IndexOnly(pid, p, w, p');
    IndexStepOk(pid, p, w, p');
  }

  /** The enqueuer never dereferences anything that is not there. */
  lemma EnqueuerDefined(pid: Pid, p: Producer, w: World)
    requires LocalOk(pid, p, w)
    ensures EnqDefined(p, w)
  {
    assert RingOk(p.index, Current(p.index));
    if p.enq.EWrite? { TailBlockIsLive(pid, p, w); }
  }
}
