/** The implicit producers of one queue (src/concurrentqueue.h) under interleaving: any number of
    producers, each with its one enqueuing thread and any number of dequeuing threads, all sharing
    the initial block pool and the free list.  One transition is one access to shared memory.

    A dequeuer enters holding a claim on published indices (DequeueCounters.ClaimIsPublished);
    add_block_to_free_list and try_get are one transition each (FreeList.ExclusiveOwnership). */
module ConcurrentProducers {
  import opened CircularArithmetic
  import opened BlockIndex
  import opened BlockIndexInvariant
  import opened Options

  type Item = nat
  type Thread = nat
  type Pid = nat

  /** A block's storage: `done` is elementsCompletelyDequeued. */
  datatype Storage = Storage(elements: seq<Option<Item>>, done: nat)

  datatype Pool = Pool(
    blocks: map<Block, Storage>,
    size: nat, next: nat,              // initialBlockPoolSize, initialBlockPoolIndex
    free: set<Block>)                  // everything given to the free list and not taken back

  /** The enqueuer, by the shared access it is about to make. */
  datatype Enq =
    | EIdle
    | ETestRoom(item: Item)            // load headIndex, fullness test
    | ELoadKey(item: Item)             // insert_block_index_entry: is the next slot free?
    | ELoadValue(item: Item)
    | EGrow(item: Item)                // new_block_index, up to the store that publishes it
    | EStoreKey(item: Item)
    | EStoreTail(item: Item)
    | EPoolLoad(item: Item)            // requisition_block
    | EPoolTake(item: Item)
    | EFreeTake(item: Item)
    | EAllocate(item: Item)
    | ERewind(item: Item)              // no block: undo the index entry
    | EClear(item: Item)
    | EReset(item: Item, block: Block)
    | EStoreValue(item: Item, block: Block)
    | EWrite(item: Item)
    | EPublish(item: Item)

  /** A dequeuer: `index .. end` is the part of its claim it has not moved out yet, `header` the
      ring it loaded, `slot` the slot of the block of `index`, `start` where it began in it. */
  datatype Deq =
    | DIdle
    | DLoadHeader(index: nat, end: nat)
    | DLoadTail(index: nat, end: nat, header: nat)
    | DLoadKey(index: nat, end: nat, header: nat, tailSlot: nat)
    | DLoadValue(index: nat, end: nat, header: nat, slot: nat)
    | DMove(index: nat, end: nat, header: nat, slot: nat, block: Block, start: nat)
    | DCount(index: nat, end: nat, header: nat, slot: nat, block: Block, start: nat)
    | DClear(index: nat, end: nat, header: nat, slot: nat, block: Block)
    | DFree(index: nat, end: nat, header: nat, slot: nat, block: Block)

  // History, read by no transition:

  /** What has happened to a published element. */
  datatype Cell = Waiting | Mine(thread: Thread) | Moved(thread: Thread) | Counted

  /** What has happened to a block since it was put into the index. */
  datatype Phase = Live | Emptied(thread: Thread) | Detached(thread: Thread) | Recycled

  /** Where a block is.  A block has one place: that is block conservation. */
  datatype Place = InPool | Free | Carried(pid: Pid) | Home(pid: Pid, number: nat)

  datatype Producer = Producer(
    tail: nat, head: nat, tailBlock: Option<Block>, index: Index,
    enq: Enq, deqs: map<Thread, Deq>,
    // history
    ledger: Ledger, homes: seq<Block>, phases: seq<Phase>, cells: seq<Cell>, sent: seq<Item>)

  datatype World = World(pool: Pool, place: map<Block, Place>)
  datatype State = State(prods: map<Pid, Producer>, world: World)

  datatype Action =
    | CallEnqueue(pid: Pid, given: Item)
    | RunEnqueuer(pid: Pid, got: Option<Block>)          // what malloc or try_get returns, if asked
    | CallDequeue(pid: Pid, thread: Thread, count: nat)
    | RunDequeuer(pid: Pid, thread: Thread)

  // ----- Transitions of the enqueuer -----

  predicate HasRing(p: Producer) { |p.index.headers| > 0 && IsHeader(p.index, Current(p.index)) }

  function NextEntry(p: Producer): (e: nat)
    requires HasRing(p)
    ensures e < |p.index.entries|
  {
    Slot(p.index, Current(p.index), NextSlot(p.index))
  }

  /** The entry the tail points at: the one just keyed. */
  function TailEntry(p: Producer): (e: nat)
    requires HasRing(p) && p.index.headers[Current(p.index)].tail < p.index.headers[Current(p.index)].capacity
    ensures e < |p.index.entries|
  {
    Slot(p.index, Current(p.index), p.index.headers[Current(p.index)].tail)
  }

  ghost predicate EnqDefined(p: Producer, w: World) {
    && HasRing(p) && p.index.headers[Current(p.index)].tail < p.index.headers[Current(p.index)].capacity
    && (p.enq.EReset? ==> p.enq.block in w.pool.blocks)
    && (p.enq.EWrite? ==> p.tailBlock.Some? && p.tailBlock.value in w.pool.blocks
                          && |w.pool.blocks[p.tailBlock.value].elements| == BLOCK_SIZE)
  }

  ghost predicate EnqEnabled(p: Producer, w: World, got: Option<Block>) {
    match p.enq
    case EIdle => false
    case EFreeTake(_) => got.Some? ==> got.value in w.pool.free
    case EAllocate(_) => got.Some? ==> got.value !in w.pool.blocks
    case EGrow(_) => true
    case _ => got.None?
  }

  ghost function EnqStep(pid: Pid, p: Producer, w: World, got: Option<Block>): (Producer, World)
    requires EnqDefined(p, w)
  {
    match p.enq
    case EIdle => (p, w)
    case ETestRoom(x) =>
      (p.(enq := if CircularLess(W(p.head), W(p.tail + BLOCK_SIZE)) then ELoadKey(x) else EIdle), w)
    case ELoadKey(x) =>
      (p.(enq := if p.index.entries[NextEntry(p)].key == INVALID_BLOCK_BASE then EStoreKey(x) else ELoadValue(x)), w)
    case ELoadValue(x) =>
      (p.(enq := if p.index.entries[NextEntry(p)].value == Null then EStoreKey(x) else EGrow(x)), w)
    case EGrow(x) =>
      if got.Some? && Current(p.index) < LAST_HEADER
      then (p.(enq := EStoreKey(x), index := Grow(p.index), ledger := GrownLedger(p)), w)
      else (p.(enq := EIdle), w)
    case EStoreKey(x) =>
      (p.(enq := EStoreTail(x), index := StoreKey(p.index, NextEntry(p), p.tail), ledger := KeyedLedger(p)), w)
    case EStoreTail(x) => (p.(enq := EPoolLoad(x), index := StoreTail(p.index, NextSlot(p.index))), w)
    case EPoolLoad(x) => (p.(enq := if w.pool.next >= w.pool.size then EFreeTake(x) else EPoolTake(x)), w)
    case EPoolTake(x) =>
      if w.pool.next < w.pool.size
      then (p.(enq := EReset(x, w.pool.next)),
            World(w.pool.(next := w.pool.next + 1), w.place[w.pool.next := Carried(pid)]))
      else (p.(enq := EFreeTake(x)), w.(pool := w.pool.(next := w.pool.next + 1)))
    case EFreeTake(x) =>
      if got.Some?
      then (p.(enq := EReset(x, got.value)),
            World(w.pool.(free := w.pool.free - {got.value}), w.place[got.value := Carried(pid)]))
      else (p.(enq := EAllocate(x)), w)
    case EAllocate(x) =>
      if got.Some?
      then (p.(enq := EReset(x, got.value)),
            World(w.pool.(blocks := w.pool.blocks[got.value := Storage(seq(BLOCK_SIZE, _ => None), 0)]),
                  w.place[got.value := Carried(pid)]))
      else (p.(enq := ERewind(x)), w)
    case ERewind(x) => (p.(enq := EClear(x), index := StoreTail(p.index, RewoundTail(p.index))), w)
    case EClear(_) => (p.(enq := EIdle, index := StoreValue(p.index, NextEntry(p), Null)), w)
    case EReset(x, b) =>
      (p.(enq := EStoreValue(x, b)), w.(pool := w.pool.(blocks := w.pool.blocks[b := w.pool.blocks[b].(done := 0)])))
    case EStoreValue(x, b) =>
      (p.(enq := EWrite(x), tailBlock := Some(b), index := StoreValue(p.index, TailEntry(p), At(b)),
          ledger := PlacedLedger(p), homes := p.homes + [b], phases := p.phases + [Live]),
       w.(place := w.place[b := Home(pid, |p.homes|)]))
    case EWrite(x) =>
      var b := p.tailBlock.value;
      var storage := w.pool.blocks[b];
      (p.(enq := EPublish(x)),
       w.(pool := w.pool.(blocks := w.pool.blocks[b := storage.(elements := storage.elements[p.tail % BLOCK_SIZE := Some(x)])])))
    case EPublish(x) => (p.(enq := EIdle, tail := p.tail + 1, cells := p.cells + [Waiting], sent := p.sent + [x]), w)
  }

  ghost function GrownLedger(p: Producer): Ledger { if Rings(p.index, p.ledger) then Grown(p.index, p.ledger) else p.ledger }
  ghost function KeyedLedger(p: Producer): Ledger { if Rings(p.index, p.ledger) then Keyed(p.index, p.ledger) else p.ledger }
  ghost function PlacedLedger(p: Producer): Ledger {
    if Rings(p.index, p.ledger) && |p.ledger.slots| == |p.ledger.born| == p.ledger.ins
    then Placed(p.index, p.ledger) else p.ledger
  }

  // ----- Transitions of a dequeuer -----

  predicate EndsRun(index: nat, end: nat) { index == end || index % BLOCK_SIZE == 0 }

  /** `indexIndex = (indexIndex + 1) & (capacity - 1)`, and on to the next block if any is left. */
  function NextBlock(p: Producer, pc: Deq): Deq
    requires pc.DCount? || pc.DFree?
    requires IsHeader(p.index, pc.header)
  {
    if pc.index == pc.end then DIdle
    else DLoadValue(pc.index, pc.end, pc.header, Res(pc.slot + 1, p.index.headers[pc.header].capacity))
  }

  ghost predicate DeqDefined(p: Producer, w: World, t: Thread) {
    && t in p.deqs && |p.index.headers| > 0
    && var pc := p.deqs[t];
    && (!pc.DIdle? && !pc.DLoadHeader? ==> IsHeader(p.index, pc.header))
    && (pc.DLoadTail? ==> p.index.headers[pc.header].tail < p.index.headers[pc.header].capacity)
    && (pc.DLoadKey? ==> pc.tailSlot < p.index.headers[pc.header].capacity)
    && (pc.DLoadValue? || pc.DClear? ==> pc.slot < p.index.headers[pc.header].capacity)
    && (pc.DLoadValue? ==> p.index.entries[Slot(p.index, pc.header, pc.slot)].value.At?)
    && (pc.DMove? || pc.DCount? ==> pc.block in w.pool.blocks)
    && (pc.DMove? ==> pc.index < pc.end && pc.index < |p.cells| && |w.pool.blocks[pc.block].elements| == BLOCK_SIZE)
    && (pc.DCount? ==> pc.start < pc.index <= |p.cells|)
    && (pc.DClear? ==> 0 < pc.index && BlockOf(pc.index - 1) < |p.phases| && |p.ledger.slots| == |p.phases|)
    && (pc.DFree? ==> 0 < pc.index && BlockOf(pc.index - 1) < |p.phases|)
  }

  ghost function DeqStep(p: Producer, w: World, t: Thread): (Producer, World)
    requires DeqDefined(p, w, t)
  {
    match p.deqs[t]
    case DIdle => (p, w)
    case DLoadHeader(i, end) => (SetDeq(p, t, DLoadTail(i, end, Current(p.index))), w)
    case DLoadTail(i, end, h) => (SetDeq(p, t, DLoadKey(i, end, h, p.index.headers[h].tail)), w)
    case DLoadKey(i, end, h, tail) =>
      var tailBase := p.index.entries[Slot(p.index, h, tail)].key;
      var base := BLOCK_SIZE * BlockOf(i);
      (SetDeq(p, t, DLoadValue(i, end, h, LookupSlot(W(base), W(tailBase), tail, p.index.headers[h].capacity))), w)
    case DLoadValue(i, end, h, slot) =>
      (SetDeq(p, t, DMove(i, end, h, slot, p.index.entries[Slot(p.index, h, slot)].value.block, i)), w)
    case DMove(i, end, h, slot, b, start) =>
      var storage := w.pool.blocks[b];
      (SetDeq(p, t, if EndsRun(i + 1, end) then DCount(i + 1, end, h, slot, b, start) else DMove(i + 1, end, h, slot, b, start))
         .(cells := p.cells[i := Moved(t)]),
       w.(pool := w.pool.(blocks := w.pool.blocks[b := storage.(elements := storage.elements[i % BLOCK_SIZE := None])])))
    case DCount(i, end, h, slot, b, start) =>
      var storage := w.pool.blocks[b];
      var last := storage.done + (i - start) == BLOCK_SIZE;
      var p' := p.(cells := Count(p.cells, start, i));
      (if last
       then SetDeq(p', t, DClear(i, end, h, slot, b)).(phases := SetPhase(p.phases, BlockOf(start), Emptied(t)))
       else SetDeq(p', t, NextBlock(p, p.deqs[t])),
       w.(pool := w.pool.(blocks := w.pool.blocks[b := storage.(done := storage.done + (i - start))])))
    case DClear(i, end, h, slot, b) =>
      var j := BlockOf(i - 1);
      (SetDeq(p, t, DFree(i, end, h, slot, b))
         .(index := StoreValue(p.index, Slot(p.index, h, slot), Null),
           phases := p.phases[j := Detached(t)], ledger := p.ledger.(live := p.ledger.live - {j})), w)
    case DFree(i, end, h, slot, b) =>
      (SetDeq(p, t, NextBlock(p, p.deqs[t])).(phases := p.phases[BlockOf(i - 1) := Recycled]),
       World(w.pool.(free := w.pool.free + {b}), w.place[b := Free]))
  }

  function SetDeq(p: Producer, t: Thread, pc: Deq): Producer { p.(deqs := p.deqs[t := pc]) }

  function SetPhase(phases: seq<Phase>, j: nat, ph: Phase): seq<Phase> {
    if j < |phases| then phases[j := ph] else phases
  }

  function Count(cells: seq<Cell>, lo: nat, hi: nat): (r: seq<Cell>)
    requires lo <= hi <= |cells|
    ensures |r| == |cells|
    ensures forall i | 0 <= i < |cells| :: r[i] == if lo <= i < hi then Counted else cells[i]
  {
    cells[..lo] + seq(hi - lo, _ => Counted) + cells[hi..]
  }

  /** The claimed cells become the thread's. */
  function Take(cells: seq<Cell>, lo: nat, hi: nat, t: Thread): (r: seq<Cell>)
    requires lo <= hi <= |cells|
    ensures |r| == |cells|
    ensures forall i | 0 <= i < |cells| :: r[i] == if lo <= i < hi then Mine(t) else cells[i]
  {
    cells[..lo] + seq(hi - lo, _ => Mine(t)) + cells[hi..]
  }

  // ----- All transitions -----

  ghost predicate Defined(s: State, a: Action) {
    && a.pid in s.prods
    && (a.RunEnqueuer? ==> EnqDefined(s.prods[a.pid], s.world))
    && (a.RunDequeuer? ==> DeqDefined(s.prods[a.pid], s.world, a.thread))
    && (a.CallDequeue? ==> |s.prods[a.pid].cells| == s.prods[a.pid].tail)
  }

  ghost predicate Enabled(s: State, a: Action) {
    && a.pid in s.prods
    && var p := s.prods[a.pid];
    match a
    case CallEnqueue(_, _) => p.enq == EIdle
    case RunEnqueuer(_, got) => EnqEnabled(p, s.world, got)
    case CallDequeue(_, t, n) => t in p.deqs && p.deqs[t] == DIdle && n > 0 && p.head + n <= p.tail
    case RunDequeuer(_, t) => t in p.deqs && p.deqs[t] != DIdle
  }

  ghost function Local(s: State, a: Action): (Producer, World)
    requires Defined(s, a) && Enabled(s, a)
  {
    var p := s.prods[a.pid];
    match a
    case CallEnqueue(_, x) => (p.(enq := if p.tail % BLOCK_SIZE == 0 then ETestRoom(x) else EWrite(x)), s.world)
    case RunEnqueuer(pid, got) => EnqStep(pid, p, s.world, got)
    case CallDequeue(_, t, n) =>
      (SetDeq(p, t, DLoadHeader(p.head, p.head + n))
         .(head := p.head + n, cells := Take(p.cells, p.head, p.head + n, t)), s.world)
    case RunDequeuer(_, t) => DeqStep(p, s.world, t)
  }

  ghost function Apply(s: State, a: Action): State
    requires Defined(s, a) && Enabled(s, a)
  {
    State(s.prods[a.pid := Local(s, a).0], Local(s, a).1)
  }
}
