/** What every transition of the concurrent producers keeps, and frames for the proofs.

    The invariant has a part for each concern: the block index, the tail, the elements and their
    dequeuers, the blocks and their storage, the enqueuer's hands, and the pools.  `Compose` puts
    together what one producer's step keeps for itself and leaves alone for the others. */
module ProducersInvariant {
  import opened CircularArithmetic
  import opened BlockIndex
  import opened BlockIndexInvariant
  import opened ConcurrentProducers
  import opened Options

  // ----- The invariant -----

  /** The tail is one insertion ahead from its store until the block is in, or rewound. */
  predicate Ahead(e: Enq) {
    e.EPoolLoad? || e.EPoolTake? || e.EFreeTake? || e.EAllocate? || e.ERewind? || e.EReset? || e.EStoreValue?
  }
  predicate IsPending(e: Enq) { Ahead(e) || e.EStoreTail? || e.EClear? }

  predicate Indexed(ph: Phase) { ph.Live? || ph.Emptied? }

  /** The block index holds exactly the blocks that are live or being cleared. */
  ghost predicate IndexCore(ix: Index, l: Ledger, homes: seq<Block>, phases: seq<Phase>, ahead: bool, pending: bool) {
    && l.ins == |l.slots| == |l.born| == |homes| == |phases|
    && IndexOk(ix, l, l.ins + (if ahead then 1 else 0), pending)
    && Current(ix) <= LAST_HEADER
    && (l.ins > 0 ==> l.lo < l.ins) && l.top <= l.ins + 1 && (pending ==> l.top == l.ins + 1)
    && (forall j {:trigger phases[j]} | 0 <= j < l.ins :: j in l.live <==> Indexed(phases[j]))
    && (forall j <- l.live :: j < l.ins)
    && HoldsAll(ix, l, homes, phases)
  }

  /** The entry of block j has the block's address until the last dequeuer clears it. */
  ghost predicate Holds(ix: Index, l: Ledger, homes: seq<Block>, phases: seq<Phase>, j: nat)
    requires j < |homes| == |phases| == |l.slots|
  {
    Indexed(phases[j]) ==> l.slots[j] < |ix.entries| && ix.entries[l.slots[j]].value == At(homes[j])
  }

  ghost predicate HoldsAll(ix: Index, l: Ledger, homes: seq<Block>, phases: seq<Phase>)
    requires |homes| == |phases| == |l.slots|
  {
    forall j: nat {:trigger Holds(ix, l, homes, phases, j)} | j < |homes| :: Holds(ix, l, homes, phases, j)
  }

  lemma HoldsKept(ix: Index, l: Ledger, homes: seq<Block>, phases: seq<Phase>, ix': Index, l': Ledger)
    requires |homes| == |phases| == |l.slots| && HoldsAll(ix, l, homes, phases) && l'.slots == l.slots
    requires |ix.entries| <= |ix'.entries|
    requires forall e | 0 <= e < |ix.entries| && ix'.entries[e].value != ix.entries[e].value ::
               forall j | 0 <= j < |homes| && Indexed(phases[j]) :: l.slots[j] != e
    ensures HoldsAll(ix', l', homes, phases)
  {
    forall j: nat | j < |homes| ensures Holds(ix', l', homes, phases, j) {
      assert Holds(ix, l, homes, phases, j);
    }
  }

  /** What the loads of insert_block_index_entry have established. */
  ghost predicate EnqFacts(ix: Index, l: Ledger, e: Enq)
    requires Rings(ix, l)
  {
    && (e.EStoreKey? ==> SlotFree(CurrentEntry(ix, l, l.ins)))
    && (e.ELoadValue? ==> CurrentEntry(ix, l, l.ins).key != INVALID_BLOCK_BASE)
    && (e.EGrow? ==> Full(ix, l))
  }

  ghost predicate IndexPart(p: Producer) {
    && IndexCore(p.index, p.ledger, p.homes, p.phases, Ahead(p.enq), IsPending(p.enq))
    && EnqFacts(p.index, p.ledger, p.enq)
  }

  predicate Writing(e: Enq) { e.EWrite? || e.EPublish? }

  /** The tail index against the blocks put in so far. */
  ghost predicate TailPart(p: Producer) {
    var n := |p.homes|;
    && (n > 0 ==> p.tailBlock == Some(p.homes[n - 1]))
    && (if Writing(p.enq) then BLOCK_SIZE * (n - 1) <= p.tail < BLOCK_SIZE * n
        else if p.enq.EIdle? then p.tail <= BLOCK_SIZE * n && (n > 0 ==> BLOCK_SIZE * (n - 1) < p.tail)
        else p.tail == BLOCK_SIZE * n)
  }

  predicate CellOk(i: nat, c: Cell, head: nat, deqs: map<Thread, Deq>) {
    match c
    case Waiting => i >= head
    case Mine(t) => i < head && t in deqs && !deqs[t].DIdle? && deqs[t].index <= i < deqs[t].end
    case Moved(t) => i < head && t in deqs && (deqs[t].DMove? || deqs[t].DCount?) && deqs[t].start <= i < deqs[t].index
    case Counted => i < head
  }

  /** The block a dequeuer that has its slot is working on. */
  function Number(pc: Deq): nat
    requires pc.DLoadValue? || pc.DMove? || pc.DCount? || ((pc.DClear? || pc.DFree?) && pc.index > 0)
  {
    if pc.DLoadValue? then BlockOf(pc.index)
    else if pc.DMove? || pc.DCount? then BlockOf(pc.start)
    else BlockOf(pc.index - 1)
  }

  /** The ring was loaded after every block of the claim was put in. */
  ghost predicate RingNewEnough(p: Producer, pc: Deq)
    requires !pc.DIdle? && !pc.DLoadHeader?
  {
    && pc.header < |p.ledger.origins| == |p.index.headers|
    && forall i {:trigger BlockOf(i)} | pc.index <= i < pc.end ::
         BlockOf(i) < |p.ledger.born| && p.ledger.born[BlockOf(i)] <= pc.header
  }

  /** The slot is the slot of block j, and j's block is the one in hand. */
  ghost predicate AtBlock(p: Producer, pc: Deq, j: nat)
    requires !pc.DIdle? && !pc.DLoadHeader? && !pc.DLoadTail? && !pc.DLoadKey?
  {
    && pc.header < |p.ledger.origins| && j < |p.homes| == |p.phases| == |p.ledger.born|
    && p.ledger.born[j] <= pc.header
    && pc.slot == Pos(p.ledger, pc.header, j)
    && (!pc.DLoadValue? ==> pc.block == p.homes[j])
  }

  ghost predicate Cells(p: Producer, lo: nat, hi: nat, c: Cell) {
    lo <= hi <= |p.cells| && forall i | lo <= i < hi :: p.cells[i] == c
  }

  ghost predicate DeqOk(p: Producer, t: Thread, pc: Deq) {
    pc.DIdle? ||
    (&& pc.index <= pc.end <= p.head && Cells(p, pc.index, pc.end, Mine(t))
     && (!pc.DCount? && !pc.DClear? && !pc.DFree? ==> pc.index < pc.end)
     && (!pc.DLoadHeader? ==> RingNewEnough(p, pc))
     && (pc.DLoadKey? ==> KeySet(p.index, pc.header, pc.tailSlot))
     && (pc.DLoadValue? ==> AtBlock(p, pc, Number(pc)))
     && (pc.DMove? ==>
           && pc.start <= pc.index && BlockOf(pc.index) == BlockOf(pc.start)
           && AtBlock(p, pc, Number(pc)) && Cells(p, pc.start, pc.index, Moved(t)))
     && (pc.DCount? ==>
           && pc.start < pc.index && BlockOf(pc.index - 1) == BlockOf(pc.start) && EndsRun(pc.index, pc.end)
           && AtBlock(p, pc, Number(pc)) && Cells(p, pc.start, pc.index, Moved(t)))
     && (pc.DClear? ==> pc.index > 0 && EndsRun(pc.index, pc.end) && AtBlock(p, pc, Number(pc))
                        && p.phases[Number(pc)] == Emptied(t))
     && (pc.DFree? ==> pc.index > 0 && EndsRun(pc.index, pc.end) && AtBlock(p, pc, Number(pc))
                       && p.phases[Number(pc)] == Detached(t)))
  }

  ghost predicate KeySet(ix: Index, h: nat, q: nat) {
    IsHeader(ix, h) && q < ix.headers[h].capacity && ix.entries[ix.headers[h].index[q]].key != INVALID_BLOCK_BASE
  }

  ghost predicate CellsPart(p: Producer) {
    && |p.cells| == |p.sent| == p.tail && p.head <= p.tail
    && (forall i {:trigger CellOk(i, p.cells[i], p.head, p.deqs)} | 0 <= i < p.tail :: CellOk(i, p.cells[i], p.head, p.deqs))
    && (forall t <- p.deqs {:trigger DeqOk(p, t, p.deqs[t])} :: DeqOk(p, t, p.deqs[t]))
  }

  /** How many of the cells lo .. lo + n are counted as dequeued. */
  ghost function CountedIn(cells: seq<Cell>, lo: nat, n: nat): (c: nat)
    requires lo + n <= |cells|
    ensures c <= n
  {
    if n == 0 then 0 else CountedIn(cells, lo, n - 1) + if cells[lo + n - 1].Counted? then 1 else 0
  }

  /** The number of published cells of block j. */
  function Filled(tail: nat, j: nat): (n: nat)
    ensures n <= BLOCK_SIZE && (n > 0 ==> BLOCK_SIZE * j + n <= tail)
  {
    if tail <= BLOCK_SIZE * j then 0 else if tail < BLOCK_SIZE * j + BLOCK_SIZE then tail - BLOCK_SIZE * j else BLOCK_SIZE
  }

  /** A live block holds exactly the elements not yet moved out, and counts the others. */
  ghost predicate LiveStorage(p: Producer, storage: Storage, j: nat)
    requires |p.cells| == |p.sent| == p.tail
  {
    && |storage.elements| == BLOCK_SIZE
    && BLOCK_SIZE * j + Filled(p.tail, j) <= p.tail
    && storage.done == CountedIn(p.cells, BLOCK_SIZE * j, Filled(p.tail, j)) < BLOCK_SIZE
    && forall i {:trigger p.cells[i]} | BLOCK_SIZE * j <= i < BLOCK_SIZE * j + Filled(p.tail, j) ::
         p.cells[i].Waiting? || p.cells[i].Mine? ==> storage.elements[i - BLOCK_SIZE * j] == Some(p.sent[i])
  }

  /** A block leaves the live phase only when all its elements have been counted out. */
  ghost predicate SpentBlock(p: Producer, j: nat)
    requires |p.cells| == p.tail && j < |p.phases|
  {
    && BLOCK_SIZE * j + BLOCK_SIZE <= p.tail
    && (forall i | BLOCK_SIZE * j <= i < BLOCK_SIZE * j + BLOCK_SIZE :: p.cells[i] == Counted)
    && (p.phases[j].Emptied? ==> Clears(p, p.phases[j].thread, j))
    && (p.phases[j].Detached? ==> Frees(p, p.phases[j].thread, j))
  }

  ghost predicate Clears(p: Producer, t: Thread, j: nat) {
    t in p.deqs && p.deqs[t].DClear? && p.deqs[t].index > 0 && Number(p.deqs[t]) == j
  }
  ghost predicate Frees(p: Producer, t: Thread, j: nat) {
    t in p.deqs && p.deqs[t].DFree? && p.deqs[t].index > 0 && Number(p.deqs[t]) == j
  }

  ghost predicate BlockOk(pid: Pid, p: Producer, w: World, j: nat)
    requires |p.cells| == |p.sent| == p.tail && j < |p.homes| == |p.phases|
  {
    && (p.phases[j] != Recycled ==>
          p.homes[j] in w.pool.blocks && p.homes[j] in w.place && w.place[p.homes[j]] == Home(pid, j))
    && (if p.phases[j] == Live then p.homes[j] in w.pool.blocks && LiveStorage(p, w.pool.blocks[p.homes[j]], j)
        else SpentBlock(p, j))
  }

  ghost predicate BlocksPart(pid: Pid, p: Producer, w: World)
    requires CellsPart(p) && |p.homes| == |p.phases|
  {
    forall j: nat {:trigger BlockOk(pid, p, w, j)} | j < |p.homes| :: BlockOk(pid, p, w, j)
  }

  /** The block the enqueuer has requisitioned, and the element it has written but not published. */
  ghost predicate EnqPart(pid: Pid, p: Producer, w: World) {
    && ((p.enq.EReset? || p.enq.EStoreValue?) ==>
          var b := p.enq.block;
          && b in w.pool.blocks && b in w.place && w.place[b] == Carried(pid)
          && |w.pool.blocks[b].elements| == BLOCK_SIZE
          && (p.enq.EStoreValue? ==> w.pool.blocks[b].done == 0))
    && (p.enq.EPublish? ==>
          && p.tailBlock.Some? && p.tailBlock.value in w.pool.blocks
          && |w.pool.blocks[p.tailBlock.value].elements| == BLOCK_SIZE
          && w.pool.blocks[p.tailBlock.value].elements[p.tail % BLOCK_SIZE] == Some(p.enq.item))
  }

  ghost predicate ProducerOk(pid: Pid, p: Producer, w: World) {
    && IndexPart(p) && TailPart(p) && CellsPart(p) && BlocksPart(pid, p, w) && EnqPart(pid, p, w)
  }

  ghost predicate PoolOk(w: World) {
    && w.place.Keys == w.pool.blocks.Keys && w.pool.free <= w.pool.blocks.Keys
    && (forall b | 0 <= b < w.pool.size :: b in w.pool.blocks)
    && (forall b <- w.pool.blocks {:trigger BlockShape(w, b)} :: BlockShape(w, b))
  }

  ghost predicate BlockShape(w: World, b: Block)
    requires b in w.pool.blocks && b in w.place
  {
    && |w.pool.blocks[b].elements| == BLOCK_SIZE
    && (w.place[b] == InPool <==> w.pool.next <= b < w.pool.size)
    && (w.place[b] == Free <==> b in w.pool.free)
  }

  predicate Owned(place: Place, pid: Pid) { (place.Home? || place.Carried?) && place.pid == pid }

  /** A block placed with a producer is in that producer's index, or in its enqueuer's hands. */
  ghost predicate Keeps(p: Producer, b: Block, place: Place) {
    match place
    case Home(_, j) => |p.homes| == |p.phases| && j < |p.homes| && p.homes[j] == b && p.phases[j] != Recycled
    case Carried(_) => (p.enq.EReset? || p.enq.EStoreValue?) && p.enq.block == b
    case _ => true
  }

  ghost predicate OwnKept(pid: Pid, p: Producer, w: World) {
    forall b <- w.place {:trigger Keeps(p, b, w.place[b])} | Owned(w.place[b], pid) :: Keeps(p, b, w.place[b])
  }

  predicate HasOwner(prods: map<Pid, Producer>, place: Place) { place.Home? || place.Carried? ==> place.pid in prods }

  /** A producer together with the world it works in. */
  ghost predicate LocalOk(pid: Pid, p: Producer, w: World) {
    PoolOk(w) && ProducerOk(pid, p, w) && OwnKept(pid, p, w)
  }

  ghost predicate Inv(s: State) {
    && PoolOk(s.world)
    && (forall pid <- s.prods {:trigger LocalOk(pid, s.prods[pid], s.world)} :: LocalOk(pid, s.prods[pid], s.world))
    && (forall b <- s.world.place {:trigger HasOwner(s.prods, s.world.place[b])} :: HasOwner(s.prods, s.world.place[b]))
  }

  // ----- Frames -----

  /** The index may gain rings and keys; what readers of old rings rely on stays. */
  ghost predicate RingsExtend(p: Producer, p': Producer) {
    && |p.index.headers| == |p.ledger.origins| <= |p'.index.headers| == |p'.ledger.origins|
    && |p.index.entries| <= |p'.index.entries|
    && (forall h {:trigger p'.index.headers[h]} | 0 <= h < |p.index.headers| ::
          && p'.index.headers[h].index == p.index.headers[h].index
          && p'.index.headers[h].capacity == p.index.headers[h].capacity)
    && (forall h | 0 <= h < |p.index.headers| :: p'.ledger.origins[h] == p.ledger.origins[h])
    && (forall e | 0 <= e < |p.index.entries| ::
          p.index.entries[e].key != INVALID_BLOCK_BASE ==> p'.index.entries[e].key != INVALID_BLOCK_BASE)
  }

  ghost predicate IsPrefix<T>(a: seq<T>, b: seq<T>) { |a| <= |b| && forall i | 0 <= i < |a| :: b[i] == a[i] }

  /** A dequeuer not taking part in a step keeps all it knows. */
  lemma DeqFrame(p: Producer, p': Producer, t: Thread, pc: Deq)
    requires DeqOk(p, t, pc) && RingsExtend(p, p')
    requires IsPrefix(p.ledger.born, p'.ledger.born) && IsPrefix(p.homes, p'.homes)
    requires |p'.homes| == |p'.phases| == |p'.ledger.born| && p.head <= p'.head && |p.cells| <= |p'.cells|
    requires forall i | 0 <= i < |p.cells| :: p.cells[i] == Mine(t) || p.cells[i] == Moved(t) ==> p'.cells[i] == p.cells[i]
    requires forall j | 0 <= j < |p.phases| && j < |p'.phases| ::
               p.phases[j] == Emptied(t) || p.phases[j] == Detached(t) ==> p'.phases[j] == p.phases[j]
    ensures DeqOk(p', t, pc)
  {
    hide IndexPart;
  }

  /** A block none of whose cells, and nothing of whose storage, a step touches. */
  lemma BlockFrame(pid: Pid, p: Producer, w: World, p': Producer, w': World, j: nat)
    requires |p.cells| == |p.sent| == p.tail && j < |p.homes| == |p.phases| && BlockOk(pid, p, w, j)
    requires |p'.cells| == |p'.sent| == p'.tail && j < |p'.homes| == |p'.phases|
    requires p'.homes[j] == p.homes[j] && p'.phases[j] == p.phases[j]
    requires p.tail <= p'.tail && (p.tail < p'.tail ==> p.tail >= BLOCK_SIZE * j + BLOCK_SIZE)
    requires IsPrefix(p.sent, p'.sent)
    requires forall i | BLOCK_SIZE * j <= i < BLOCK_SIZE * j + BLOCK_SIZE && i < p.tail :: p'.cells[i] == p.cells[i]
    requires p.phases[j] != Recycled && p.homes[j] in w.pool.blocks && p.homes[j] in w.place ==>
               && p.homes[j] in w'.pool.blocks && p.homes[j] in w'.place
               && w'.pool.blocks[p.homes[j]] == w.pool.blocks[p.homes[j]] && w'.place[p.homes[j]] == w.place[p.homes[j]]
    requires p.phases[j].Emptied? && Clears(p, p.phases[j].thread, j) ==> Clears(p', p.phases[j].thread, j)
    requires p.phases[j].Detached? && Frees(p, p.phases[j].thread, j) ==> Frees(p', p.phases[j].thread, j)
    ensures BlockOk(pid, p', w', j)
  {
    assert Filled(p'.tail, j) == Filled(p.tail, j) || p.tail < p'.tail;
    CountedSame(p.cells, p'.cells, BLOCK_SIZE * j, Filled(p.tail, j));
  }

  lemma {:induction false} CountedSame(a: seq<Cell>, b: seq<Cell>, lo: nat, n: nat)
    requires lo + n <= |a| && lo + n <= |b|
    requires forall i | lo <= i < lo + n :: a[i].Counted? == b[i].Counted?
    ensures CountedIn(a, lo, n) == CountedIn(b, lo, n)
  {
    if n > 0 { CountedSame(a, b, lo, n - 1); }
  }

  /** A published element that is not counted out lies in a live block. */
  lemma UncountedIsLive(pid: Pid, p: Producer, w: World, i: nat)
    requires ProducerOk(pid, p, w) && i < p.tail && p.cells[i] != Counted
    ensures BlockOf(i) < |p.homes| && p.phases[BlockOf(i)] == Live && BlockOk(pid, p, w, BlockOf(i))
  {
    assert BlockOk(pid, p, w, BlockOf(i));
  }

  /** Nothing an enqueuer does concerns a dequeuer, except that it publishes more. */
  lemma CellsKept(p: Producer, p': Producer)
    requires CellsPart(p) && p'.deqs == p.deqs && p'.head == p.head && RingsExtend(p, p')
    requires |p'.cells| == |p'.sent| == p'.tail && IsPrefix(p.cells, p'.cells)
    requires forall i | |p.cells| <= i < |p'.cells| :: p'.cells[i] == Waiting
    requires |p'.homes| == |p'.phases| == |p'.ledger.born|
    requires IsPrefix(p.ledger.born, p'.ledger.born) && IsPrefix(p.homes, p'.homes) && IsPrefix(p.phases, p'.phases)
    ensures CellsPart(p')
  {
    forall t <- p'.deqs ensures DeqOk(p', t, p'.deqs[t]) {
      assert DeqOk(p, t, p.deqs[t]);
      DeqFrame(p, p', t, p.deqs[t]);
    }
    forall i | 0 <= i < p'.tail ensures CellOk(i, p'.cells[i], p'.head, p'.deqs) {
      if i < p.tail { assert CellOk(i, p.cells[i], p.head, p.deqs); }
    }
  }

  /** Steps that change only the index, the ledger and the enqueuer's program counter. */
  lemma IndexOnly(pid: Pid, p: Producer, w: World, p': Producer)
    requires ProducerOk(pid, p, w)
    requires p' == p.(enq := p'.enq, index := p'.index, ledger := p'.ledger)
    requires p'.ledger.born == p.ledger.born && RingsExtend(p, p')
    requires IndexPart(p') && TailPart(p') && EnqPart(pid, p', w)
    ensures ProducerOk(pid, p', w)
  {
    CellsKept(p, p');
    forall j: nat | j < |p'.homes| ensures BlockOk(pid, p', w, j) {
      assert BlockOk(pid, p, w, j);
      BlockFrame(pid, p, w, p', w, j);
    }
  }

  // ----- Producers do not disturb each other -----

  ghost predicate SameBlock(b: Block, w: World, w': World) {
    b in w.place && b in w'.place && w'.place[b] == w.place[b]
    && (b in w.pool.blocks ==> b in w'.pool.blocks && w'.pool.blocks[b] == w.pool.blocks[b])
  }

  ghost predicate HomesKept(pid: Pid, w: World, w': World) {
    forall b <- w.place {:trigger SameBlock(b, w, w')} | w.place[b].Home? && w.place[b].pid == pid :: SameBlock(b, w, w')
  }

  /** A step of pid touches no block placed with another producer, and places none with it. */
  ghost predicate OthersKept(pid: Pid, w: World, w': World) {
    && (forall b <- w.place {:trigger SameBlock(b, w, w')} ::
          (w.place[b].Home? || w.place[b].Carried?) && w.place[b].pid != pid ==> SameBlock(b, w, w'))
    && (forall b <- w'.place {:trigger SameBlock(b, w, w')} ::
          (w'.place[b].Home? || w'.place[b].Carried?) && w'.place[b].pid != pid ==> SameBlock(b, w, w'))
  }

  ghost predicate StepOk(pid: Pid, p': Producer, w: World, w': World) {
    LocalOk(pid, p', w') && OthersKept(pid, w, w')
  }

  /** A producer whose blocks a step leaves alone. */
  lemma WorldFrame(pid: Pid, p: Producer, w: World, w': World)
    requires ProducerOk(pid, p, w) && HomesKept(pid, w, w') && EnqPart(pid, p, w')
    ensures ProducerOk(pid, p, w')
  {
    forall j: nat | j < |p.homes| ensures BlockOk(pid, p, w', j) {
      assert BlockOk(pid, p, w, j);
      if p.phases[j] != Recycled { assert SameBlock(p.homes[j], w, w'); }
    }
  }

  /** The block being written to is the last one, and live. */
  lemma TailBlockIsLive(pid: Pid, p: Producer, w: World)
    requires ProducerOk(pid, p, w) && Writing(p.enq)
    ensures |p.homes| > 0 && p.phases[|p.homes| - 1] == Live && p.tailBlock == Some(p.homes[|p.homes| - 1])
    ensures BlockOk(pid, p, w, |p.homes| - 1)
  {
    assert BlockOk(pid, p, w, |p.homes| - 1);
  }

  lemma OtherProducer(pid: Pid, q: Pid, p: Producer, w: World, w': World)
    requires LocalOk(q, p, w) && OthersKept(pid, w, w') && PoolOk(w') && q != pid
    ensures LocalOk(q, p, w')
  {
    if p.enq.EPublish? {
      TailBlockIsLive(q, p, w);
      assert SameBlock(p.tailBlock.value, w, w');
    }
    if p.enq.EReset? || p.enq.EStoreValue? { assert SameBlock(p.enq.block, w, w'); }
    WorldFrame(q, p, w, w');
    forall b <- w'.place | Owned(w'.place[b], q) ensures Keeps(p, b, w'.place[b]) {
      assert SameBlock(b, w, w');
      assert Keeps(p, b, w.place[b]);
    }
  }

  /** A step that is right for its own producer is right for all. */
  lemma Compose(s: State, pid: Pid, p': Producer, w': World)
    requires Inv(s) && pid in s.prods && StepOk(pid, p', s.world, w')
    ensures Inv(State(s.prods[pid := p'], w'))
  {
    var s' := State(s.prods[pid := p'], w');
    forall q <- s'.prods ensures LocalOk(q, s'.prods[q], s'.world) {
      if q != pid {
        assert LocalOk(q, s.prods[q], s.world);
        OtherProducer(pid, q, s.prods[q], s.world, w');
      }
    }
    forall b <- w'.place ensures HasOwner(s'.prods, w'.place[b]) {
      if (w'.place[b].Home? || w'.place[b].Carried?) && w'.place[b].pid != pid {
        assert SameBlock(b, s.world, w');
        assert HasOwner(s.prods, s.world.place[b]);
      }
    }
  }
}
