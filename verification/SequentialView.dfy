/** The state of one implicit producer (src/concurrentqueue.h) between the steps of one thread, and
    what each step does to it.  The class in ImplicitProducer.dfy keeps `Good` of its own view. */
module SequentialView {
  import opened CircularArithmetic
  import opened BlockIndex
  import opened BlockIndexInvariant
  import opened Blocks
  import opened Options

  /** Fields of the producer and its pool; `sent` is every element ever written, `homes` the block of
      each block number. */
  datatype View = View(
    head: nat, index: Index, ledger: Ledger, homes: seq<Block>, sent: seq<Item>,
    blocks: map<Block, Storage>, size: nat, next: nat, free: seq<Block>)

  function Tail(v: View): nat { |v.sent| }

  /** Block j has elements left, or space for more. */
  predicate Needed(v: View, j: nat) { j < |v.homes| && v.head < BLOCK_SIZE * j + BLOCK_SIZE }

  function Drained(head: nat, j: nat): nat { if head > BLOCK_SIZE * j then head - BLOCK_SIZE * j else 0 }

  ghost predicate Mine(v: View, b: Block) { exists j: nat {:trigger v.homes[j]} :: Needed(v, j) && v.homes[j] == b }

  /** A needed block: in the index, out of every pool, holding what is yet to be dequeued. */
  ghost predicate Held(v: View, j: nat)
    requires j < |v.homes|
  {
    var b := v.homes[j];
    && j in v.ledger.live && j < |v.ledger.slots|
    && v.ledger.slots[j] < |v.index.entries| && v.index.entries[v.ledger.slots[j]].value == At(b)
    && b in v.blocks && !Unused(b, v.size, v.next, v.free)
    && |v.blocks[b].elements| == BLOCK_SIZE && v.blocks[b].done == Drained(v.head, j)
    && forall i {:trigger v.sent[i]} | v.head <= i < |v.sent| && BLOCK_SIZE * j <= i < BLOCK_SIZE * j + BLOCK_SIZE ::
         v.blocks[b].elements[i - BLOCK_SIZE * j] == Some(v.sent[i])
  }

  ghost predicate AllHeld(v: View) {
    forall j: nat {:trigger Held(v, j)} | Needed(v, j) :: Held(v, j)
  }

  ghost predicate IndexGood(v: View) {
    && v.ledger.ins == |v.ledger.slots| == |v.ledger.born| == |v.homes|
    && IndexOk(v.index, v.ledger, |v.homes|, false)
    && Current(v.index) <= LAST_HEADER
    && forall j <- v.ledger.live :: Needed(v, j)
  }

  ghost predicate Apart(v: View, i: nat, j: nat) { Needed(v, i) && Needed(v, j) && i != j ==> v.homes[i] != v.homes[j] }

  /** What holds between any two steps. */
  ghost predicate Good(v: View) {
    && IndexGood(v)
    && v.head <= |v.sent| <= BLOCK_SIZE * |v.homes|
    && BLOCK_SIZE * |v.homes| - v.head < HALF
    && AllHeld(v)
    && (forall i: nat, j: nat {:trigger Apart(v, i, j)} :: Apart(v, i, j))
    && PoolGood(v.blocks, v.size, v.next, v.free)
  }

  /** No block beyond the one of the last element. */
  predicate Settled(v: View) { |v.homes| > 0 ==> BLOCK_SIZE * (|v.homes| - 1) < |v.sent| }

  // ----- Adding a block -----

  ghost function WithBlock(v: View, b: Block, blocks: map<Block, Storage>): View
    requires Rings(v.index, v.ledger) && |v.ledger.slots| == |v.ledger.born| == v.ledger.ins
  {
    v.(index := StoreValue(v.index, EntryOf(v.index, v.ledger, Current(v.index), v.ledger.ins), At(b)),
       ledger := Placed(v.index, v.ledger), homes := v.homes + [b], blocks := blocks)
  }

  /** The view with its index one key ahead, as insert_block_index_entry leaves it. */
  ghost predicate Keyed1(v: View) {
    && v.ledger.ins == |v.ledger.slots| == |v.ledger.born| == |v.homes| && v.ledger.ins < v.ledger.top
    && IndexOk(v.index, v.ledger, |v.homes| + 1, true)
    && Current(v.index) <= LAST_HEADER
    && (forall j <- v.ledger.live :: Needed(v, j))
    && v.head <= |v.sent| <= BLOCK_SIZE * |v.homes|
    && AllHeld(v)
    && (forall i: nat, j: nat {:trigger Apart(v, i, j)} :: Apart(v, i, j))
  }

  lemma AddIndex(v: View, b: Block, blocks: map<Block, Storage>)
    requires Keyed1(v)
    ensures IndexGood(WithBlock(v, b, blocks))
    ensures |v.homes| in WithBlock(v, b, blocks).ledger.live
  {
    PlaceOk(v.index, v.ledger, b);
  }

  lemma AddBlock(v: View, b: Block, blocks: map<Block, Storage>)
    requires Keyed1(v) && PoolGood(v.blocks, v.size, v.next, v.free) && BLOCK_SIZE * |v.homes| + BLOCK_SIZE - v.head < HALF
    requires b in v.blocks && blocks == v.blocks[b := v.blocks[b].(done := 0)] && !Unused(b, v.size, v.next, v.free)
    requires forall j: nat {:trigger v.homes[j]} | Needed(v, j) :: v.homes[j] != b
    ensures Good(WithBlock(v, b, blocks))
  {
    var v' := WithBlock(v, b, blocks);
    AddIndex(v, b, blocks);
    forall j: nat | Needed(v', j) ensures Held(v', j) {
      if j < |v.homes| {
        assert Needed(v, j) && Held(v, j);
        OtherEntry(v, j);
      }
    }
    forall i: nat, j: nat ensures Apart(v', i, j) { assert Apart(v, i, j); }
  }

  /** A requisition touches no block of the producer. */
  lemma OtherPool(v: View, v': View)
    requires Keyed1(v) && v' == v.(blocks := v'.blocks, next := v'.next, free := v'.free)
    requires forall c <- v.blocks :: c in v'.blocks && v'.blocks[c] == v.blocks[c]
    requires forall c | !Unused(c, v.size, v.next, v.free) && c in v.blocks :: !Unused(c, v.size, v'.next, v'.free)
    ensures Keyed1(v')
  {
    forall j: nat | Needed(v', j) ensures Held(v', j) { assert Needed(v, j) && Held(v, j); }
    forall i: nat, j: nat ensures Apart(v', i, j) { assert Apart(v, i, j); }
  }

  /** No block of the producer is in a pool, or unallocated. */
  lemma NotUnused(v: View)
    requires AllHeld(v)
    ensures forall j: nat {:trigger v.homes[j]} | Needed(v, j) ::
             v.homes[j] in v.blocks && !Unused(v.homes[j], v.size, v.next, v.free)
  {
    forall j: nat | Needed(v, j) ensures v.homes[j] in v.blocks
      && !Unused(v.homes[j], v.size, v.next, v.free) { assert Held(v, j); }
  }

  /** The entry of a needed block is not the pending one. */
  lemma OtherEntry(v: View, j: nat)
    requires Keyed1(v) && Needed(v, j)
    ensures j < |v.ledger.slots| && v.ledger.slots[j] != EntryOf(v.index, v.ledger, Current(v.index), v.ledger.ins)
  {
    assert Held(v, j);
    assert LiveAt(v.index, v.ledger, j);
    assert EntryOf(v.index, v.ledger, Current(v.index), j) == v.ledger.slots[j];
    EntriesDistinct(v.index, v.ledger, j, v.ledger.ins);
  }

  // ----- Inserting a key, and undoing it -----

  ghost function Inserted(v: View, ix: Index, l: Ledger): View { v.(index := ix, ledger := l) }

  /** insert_block_index_entry: the key of the next block is stored, and the tail advanced. */
  ghost predicate InsertsKey(v: View, ix: Index, l: Ledger) {
    && IndexOk(ix, l, v.ledger.ins + 1, true) && Current(ix) <= LAST_HEADER
    && l.ins == v.ledger.ins < l.top && l.slots == v.ledger.slots && l.live == v.ledger.live && |l.born| == |v.ledger.born|
    && |v.index.entries| <= |ix.entries|
    && forall e | 0 <= e < |v.index.entries| :: ix.entries[e].value == v.index.entries[e].value
  }

  /** Storing the key in the slot after the tail, and moving the tail to it. */
  lemma InsertAtTail(ix: Index, l: Ledger)
    requires IndexOk(ix, l, l.ins, false) && SlotFree(CurrentEntry(ix, l, l.ins))
    ensures HeaderThere(ix)
    ensures var e := EntryOf(ix, l, Current(ix), l.ins);
            var ix', l' := StoreTail(StoreKey(ix, e, BLOCK_SIZE * l.ins), NextSlot(ix)), Keyed(ix, l);
            && IndexOk(ix', l', l.ins + 1, true) && Rings(ix', l') && Current(ix') == Current(ix) && l.ins < l'.top
               && EntryOf(ix', l', Current(ix'), l.ins) == e
            && |ix'.entries| == |ix.entries| && forall i | 0 <= i < |ix.entries| :: ix'.entries[i].value == ix.entries[i].value
  {
    hide IndexGood, Aligned, KeysFit, Window, LivesOk, OldTailsSet;
    NextSlotIs(ix, l, l.ins);
    StoreKeyOk(ix, l);
    AdvanceTailOk(StoreKey(ix, EntryOf(ix, l, Current(ix), l.ins), BLOCK_SIZE * l.ins), Keyed(ix, l), l.ins, true);
  }

  ghost predicate HeaderThere(ix: Index) { |ix.headers| > 0 && IsHeader(ix, Current(ix)) }

  // ----- Free slots -----

  /** insert_block_index_entry would take the k-th slot after the tail without growing the ring. */
  ghost predicate FreeAfter(ix: Index, k: nat)
    requires HeaderThere(ix)
  {
    var h := ix.headers[Current(ix)];
    SlotFree(ix.entries[Slot(ix, Current(ix), Res(h.tail + 1 + k, h.capacity))])
  }

  /** There are slots for n more blocks. */
  ghost predicate FreeSlots(ix: Index, n: nat) {
    && HeaderThere(ix) && n <= ix.headers[Current(ix)].capacity
    && forall k | 0 <= k < n :: FreeAfter(ix, k)
  }

  lemma AfterTail(ix: Index, l: Ledger, n: nat, k: nat)
    requires Rings(ix, l) && TailAt(ix, l, n)
    ensures HeaderThere(ix) && ix.headers[Current(ix)].capacity == CapacityAt(Current(ix))
    ensures FreeAfter(ix, k) == SlotFree(CurrentEntry(ix, l, n + k))
  {
    var g := Current(ix);
    assert RingOk(ix, g);
    CongShift(ix.headers[g].tail, l.origins[g] + n - 1, 1 + k, CapacityAt(g));
  }

  // The slot after the tail is the entry of the next block.
  lemma TailSlot(ix: Index, l: Ledger)
    requires IndexOk(ix, l, l.ins, false)
    ensures Rings(ix, l) && HeaderThere(ix) && NextSlot(ix) < ix.headers[Current(ix)].capacity
    ensures Slot(ix, Current(ix), NextSlot(ix)) == EntryOf(ix, l, Current(ix), l.ins)
    ensures FreeAfter(ix, 0) == SlotFree(CurrentEntry(ix, l, l.ins))
  {
    AfterTail(ix, l, l.ins, 0);
    NextSlotIs(ix, l, l.ins);
    assert RingOk(ix, Current(ix));
  }

  /** A ring before and after the slot after its tail has got a block. */
  ghost predicate FillsSlot(ix: Index, l: Ledger, ix': Index, l': Ledger, n: nat) {
    && Rings(ix, l) && Rings(ix', l') && TailAt(ix, l, n) && TailAt(ix', l', n + 1)
    && |ix'.headers| == |ix.headers| && l'.origins == l.origins && |ix'.entries| == |ix.entries|
    && ix'.headers[Current(ix)].index == ix.headers[Current(ix)].index
    && !SlotFree(CurrentEntry(ix', l', n))
    && forall e | 0 <= e < |ix.entries| && e != EntryOf(ix, l, Current(ix), n) :: ix'.entries[e] == ix.entries[e]
  }

  lemma EntryKept(ix: Index, l: Ledger, ix': Index, l': Ledger, n: nat, j: nat)
    requires FillsSlot(ix, l, ix', l', n) && n < j < n + CapacityAt(Current(ix))
    ensures CurrentEntry(ix', l', j) == CurrentEntry(ix, l, j)
  {
    EntriesDistinct(ix, l, n, j);
  }

  lemma NextAfter(ix: Index, l: Ledger, ix': Index, l': Ledger, n: nat, k: nat)
    requires FillsSlot(ix, l, ix', l', n) && k < CapacityAt(Current(ix))
    ensures HeaderThere(ix) && HeaderThere(ix')
    ensures ix.headers[Current(ix)].capacity == ix'.headers[Current(ix')].capacity == CapacityAt(Current(ix))
    ensures FreeAfter(ix', k) <==> k + 1 < CapacityAt(Current(ix)) && FreeAfter(ix, k + 1)
  {
    AfterTail(ix, l, n, k + 1);
    AfterTail(ix', l', n + 1, k);
    if k + 1 < CapacityAt(Current(ix)) { EntryKept(ix, l, ix', l', n, n + 1 + k); } else { WholeTurn(l, Current(ix), n); }
    hide FreeAfter, SlotFree, RingOk, Rings, TailAt;
  }

  /** It leaves one free slot less, and that was there. */
  lemma SlotFilled(ix: Index, l: Ledger, ix': Index, l': Ledger, n: nat, m: nat)
    requires FillsSlot(ix, l, ix', l', n)
    ensures HeaderThere(ix)
    ensures FreeSlots(ix, m + 1) <==> FreeAfter(ix, 0) && FreeSlots(ix', m)
  {
    var c := CapacityAt(Current(ix));
    assert c > 0;
    NextAfter(ix, l, ix', l', n, (c - 1) as nat);
    assert Current(ix') == Current(ix);
    hide FillsSlot, FreeAfter;
    forall k | 0 <= k < c ensures FreeAfter(ix', k) <==> k + 1 < c && FreeAfter(ix, k + 1) {
      NextAfter(ix, l, ix', l', n, k);
    }
    if FreeSlots(ix, m + 1) {
      forall k | 0 <= k < m ensures FreeAfter(ix', k) { assert FreeAfter(ix, k + 1); }
    }
    if FreeAfter(ix, 0) && FreeSlots(ix', m) {
      assert !FreeAfter(ix', (c - 1) as nat) && m < c;
      forall k | 0 <= k < m + 1 ensures FreeAfter(ix, k) { if k > 0 { assert FreeAfter(ix', k - 1); } }
    }
  }

  lemma WholeTurn(l: Ledger, h: nat, n: nat)
    requires h < |l.origins|
    ensures Pos(l, h, n + CapacityAt(h)) == Pos(l, h, n)
  {
    CongBy(l.origins[h] + n + CapacityAt(h), l.origins[h] + n, CapacityAt(h), 1);
  }

  /** The indices of n more blocks stay within the window of the comparisons. */
  predicate RoomFor(v: View, n: nat) { BLOCK_SIZE * (|v.homes| + n) - v.head < HALF }

  /** n more blocks can be had, and indexed, without allocating. */
  ghost predicate CanHold(v: View, n: nat) { FreeSlots(v.index, n) && Spare(v.size, v.next, v.free) >= n }

  /** What asking for one more block comes to: it fails only if the queue's window is full, or malloc
      refuses, or would have to be called and may not be; and no malloc is called without need. */
  ghost predicate Obtains(v: View, v': View, got: bool, refused: int, canAlloc: bool) {
    && 0 <= refused && (CanHold(v, 1) || !canAlloc ==> refused == 0)
    && (got <==> RoomFor(v, 1) && refused == 0 && (canAlloc || CanHold(v, 1)))
    && (got && CanHold(v, 1) ==> forall m: nat :: CanHold(v, m + 1) <==> CanHold(v', m))
  }

  lemma HoldsOne(v: View)
    requires IndexGood(v)
    ensures HeaderThere(v.index) && (CanHold(v, 1) <==> FreeAfter(v.index, 0) && Spare(v.size, v.next, v.free) > 0)
  {
    AfterTail(v.index, v.ledger, |v.homes|, 0);
    hide FreeAfter, IndexOk;
  }

  lemma HoldsLess(v: View, v': View, b: Block, e: nat)
    requires IndexGood(v) && IndexGood(v') && |v'.homes| == |v.homes| + 1 && HeaderThere(v.index) && CanHold(v, 1)
    requires e == EntryOf(v.index, v.ledger, Current(v.index), |v.homes|)
    requires v'.index == StoreValue(StoreTail(StoreKey(v.index, e, BLOCK_SIZE * |v.homes|), NextSlot(v.index)), e, At(b))
    requires v'.ledger.origins == v.ledger.origins
    requires Spare(v'.size, v'.next, v'.free) == Spare(v.size, v.next, v.free) - 1
    ensures forall m: nat :: CanHold(v, m + 1) <==> CanHold(v', m)
  {
    hide IndexGood, FreeSlots;
    HoldsOne(v);
    forall m: nat ensures CanHold(v, m + 1) <==> CanHold(v', m) { BlockFilled(v, v', b, e, m); }
  }

  /** The key is inserted first, and then the block obtained. */
  lemma ObtainsIf(v: View, v': View, got: bool, inserted: bool, refused: int, canAlloc: bool)
    requires IndexGood(v) && HeaderThere(v.index) && (RoomFor(v, 1) || (!got && refused == 0)) && 0 <= refused
    requires RoomFor(v, 1) && !inserted ==> !got && ((refused > 0 && canAlloc) || (refused == 0 && !canAlloc))
    requires RoomFor(v, 1) && !inserted ==> !FreeAfter(v.index, 0)
    requires RoomFor(v, 1) && inserted && !FreeAfter(v.index, 0) ==> canAlloc
    requires RoomFor(v, 1) && inserted ==> (got <==> refused == 0 && (canAlloc || Spare(v.size, v.next, v.free) > 0))
    requires RoomFor(v, 1) && inserted && (Spare(v.size, v.next, v.free) > 0 || !canAlloc) ==> refused == 0
    requires got && CanHold(v, 1) ==> forall m: nat :: CanHold(v, m + 1) <==> CanHold(v', m)
    ensures Obtains(v, v', got, refused, canAlloc)
  {
    HoldsOne(v);
    hide CanHold, FreeAfter, IndexGood;
  }

  /** What an enqueue comes to: a block is asked for only at the end of the one before. */
  ghost predicate Stores(v: View, v': View, ok: bool, refused: int, canAlloc: bool) {
    if |v.sent| % BLOCK_SIZE == 0 then Obtains(v, v', ok, refused, canAlloc)
    else ok && refused == 0 && forall m: nat :: CanHold(v, m) <==> CanHold(v', m)
  }

  /** The same for n blocks at once. */
  ghost predicate ObtainsAll(v: View, n: nat, ok: bool, refused: int, canAlloc: bool) {
    && 0 <= refused && (CanHold(v, n) || !canAlloc ==> refused == 0)
    && (ok <==> RoomFor(v, n) && refused == 0 && (canAlloc || CanHold(v, n)))
  }

  /** On the way to n blocks, with `left` of them to go. */
  ghost predicate OnTheWay(v: View, now: View, n: nat, left: nat, canAlloc: bool) {
    && left <= n && |now.homes| == |v.homes| + (n - left) && now.head == v.head
    && (CanHold(v, n) ==> CanHold(now, left)) && (!canAlloc && CanHold(now, left) ==> CanHold(v, n))
  }

  lemma Underway(v: View, n: nat, canAlloc: bool)
    ensures OnTheWay(v, v, n, n, canAlloc)
  {
  }

  lemma ReservedGood(v: View, v': View, startTailIndex: nat, first: Option<Block>)
    requires Reserved(v, v', startTailIndex, first)
    ensures Good(v') && |v.homes| <= |v'.homes|
  {
  }

  lemma HoldsFewer(v: View, m: nat, n: nat)
    requires CanHold(v, n) && m <= n
    ensures CanHold(v, m)
  {
  }

  lemma OneBlockMore(v: View, now: View, now': View, n: nat, left: nat, got: bool, refused: int, canAlloc: bool)
    requires OnTheWay(v, now, n, left, canAlloc) && left > 0 && Obtains(now, now', got, refused, canAlloc)
    requires got ==> |now'.homes| == |now.homes| + 1 && now'.head == now.head
    ensures got ==> OnTheWay(v, now', n, left - 1, canAlloc) && refused == 0
    ensures !got ==> ObtainsAll(v, n, false, refused, canAlloc)
  {
    if CanHold(now, left) { HoldsFewer(now, 1, left); }
    hide CanHold;
    if got && CanHold(now, 1) { assert CanHold(now, (left - 1) + 1) <==> CanHold(now', left - 1); }
  }

  lemma AllObtained(v: View, now: View, n: nat, canAlloc: bool)
    requires OnTheWay(v, now, n, 0, canAlloc) && Good(now)
    ensures ObtainsAll(v, n, true, 0, canAlloc)
  {
    AfterTail(now.index, now.ledger, |now.homes|, 0);
    hide IndexOk, AllHeld;
  }

  lemma ObtainsSame(v: View, v1: View, v2: View, got: bool, refused: int, canAlloc: bool)
    requires Obtains(v, v1, got, refused, canAlloc)
    requires v2.index == v1.index && v2.size == v1.size && v2.next == v1.next && v2.free == v1.free
    ensures Obtains(v, v2, got, refused, canAlloc)
  {
    hide FreeSlots, Spare;
    assert forall m: nat :: CanHold(v1, m) <==> CanHold(v2, m);
    hide CanHold;
  }

  lemma RefusedStores(v: View, v': View, refused: int, canAlloc: bool)
    requires |v.sent| % BLOCK_SIZE == 0 && Obtains(v, v', false, refused, canAlloc)
    ensures Stores(v, v', false, refused, canAlloc)
  {
  }

  /** When it succeeds. */
  lemma StoresWhen(v: View, v': View, ok: bool, refused: int, canAlloc: bool)
    requires Good(v) && Settled(v) && Stores(v, v', ok, refused, canAlloc)
    ensures ok <==> |v.sent| % BLOCK_SIZE != 0 ||
                    (|v.sent| + BLOCK_SIZE - v.head < HALF && refused == 0 && (canAlloc || CanHold(v, 1)))
  {
    SettledBlocks(v);
    hide Good, CanHold;
  }

  lemma StoresThrough(v: View, v1: View, v2: View, refused: int, canAlloc: bool)
    requires if |v.sent| % BLOCK_SIZE == 0 then Obtains(v, v1, true, refused, canAlloc) else v1 == v && refused == 0
    requires v2.index == v1.index && v2.size == v1.size && v2.next == v1.next && v2.free == v1.free
    ensures Stores(v, v2, true, refused, canAlloc)
  {
    hide FreeSlots, Spare;
    assert forall m: nat :: CanHold(v1, m) <==> CanHold(v2, m);
    hide CanHold;
  }

  /** One more block has been put into the index and the queue, without the ring growing. */
  lemma BlockFilled(v: View, v': View, b: Block, e: nat, m: nat)
    requires IndexGood(v) && IndexGood(v') && |v'.homes| == |v.homes| + 1 && HeaderThere(v.index)
    requires e == EntryOf(v.index, v.ledger, Current(v.index), |v.homes|)
    requires v'.index == StoreValue(StoreTail(StoreKey(v.index, e, BLOCK_SIZE * |v.homes|), NextSlot(v.index)), e, At(b))
    requires v'.ledger.origins == v.ledger.origins
    ensures FreeSlots(v.index, m + 1) <==> FreeAfter(v.index, 0) && FreeSlots(v'.index, m)
  {
    assert RingOk(v.index, Current(v.index));
    assert FillsSlot(v.index, v.ledger, v'.index, v'.ledger, |v.homes|);
    SlotFilled(v.index, v.ledger, v'.index, v'.ledger, |v.homes|, m);
  }

  lemma InsertKey(v: View, ix: Index, l: Ledger)
    requires Good(v)
    requires InsertsKey(v, ix, l)
    ensures Keyed1(Inserted(v, ix, l))
  {
    var v' := Inserted(v, ix, l);
    forall j: nat | Needed(v', j) ensures Held(v', j) { assert Needed(v, j) && Held(v, j); }
    forall i: nat, j: nat ensures Apart(v', i, j) { assert Apart(v, i, j); }
  }

  /** No block: the tail is rewound and the value cleared. */
  lemma UndoKey(v: View)
    requires Keyed1(v) && PoolGood(v.blocks, v.size, v.next, v.free) && BLOCK_SIZE * |v.homes| - v.head < HALF
    ensures IsHeader(v.index, Current(v.index))
    ensures var e := EntryOf(v.index, v.ledger, Current(v.index), v.ledger.ins);
            Good(v.(index := StoreValue(StoreTail(v.index, RewoundTail(v.index)), e, Null)))
  {
    var e := EntryOf(v.index, v.ledger, Current(v.index), v.ledger.ins);
    RewindTailOk(v.index, v.ledger, |v.homes|, true);
    var ix := StoreTail(v.index, RewoundTail(v.index));
    forall j <- v.ledger.live ensures j < |v.ledger.slots| ==> v.ledger.slots[j] != e { OtherEntry(v, j); }
    assert EntryOf(ix, v.ledger, Current(ix), v.ledger.ins) == e;
    StoreNullOk(ix, v.ledger, |v.homes|, true, false, e);
    var v' := v.(index := StoreValue(ix, e, Null));
    forall j: nat | Needed(v', j) ensures Held(v', j) {
      assert Needed(v, j) && Held(v, j);
      OtherEntry(v, j);
    }
    forall i: nat, j: nat ensures Apart(v', i, j) { assert Apart(v, i, j); }
  }

  lemma NeededNotUnused(v: View)
    requires Good(v)
    ensures forall j: nat {:trigger v.homes[j]} | Needed(v, j) ::
             v.homes[j] in v.blocks && !Unused(v.homes[j], v.size, v.next, v.free)
  {
    NotUnused(v);
  }

  // ----- What a step does to the pool -----

  /** Nothing but the index has changed, and the index has the same blocks in the same entries. */
  ghost predicate Untouched(v: View, v': View) {
    && v'.blocks == v.blocks && v'.next == v.next && v'.free == v.free && v'.homes == v.homes
    && v'.ledger.live == v.ledger.live && v'.ledger.slots == v.ledger.slots && v'.sent == v.sent
  }

  /** Block b was taken from a pool or from malloc; the other blocks are as they were. */
  ghost predicate TakesBlock(v: View, v': View, b: Block) {
    && v'.size == v.size && b in v'.blocks && !Unused(b, v.size, v'.next, v'.free)
    && (b in v.blocks ==> Unused(b, v.size, v.next, v.free))
    && (forall c <- v.blocks | c != b :: c in v'.blocks && v'.blocks[c] == v.blocks[c])
    && (forall c <- v'.blocks :: c == b || c in v.blocks)
    && (forall c | c != b :: Unused(c, v.size, v'.next, v'.free) == Unused(c, v.size, v.next, v.free))
  }

  lemma UntouchedSelf(v: View)
    ensures Untouched(v, v)
  {
  }

  /** The same, seen from before the key was inserted. */
  lemma SinceKey(v: View, ix: Index, l: Ledger, v': View, b: Option<Block>)
    requires l.live == v.ledger.live && l.slots == v.ledger.slots
    requires match b case None => Untouched(Inserted(v, ix, l), v') case Some(new_) => TakesBlock(Inserted(v, ix, l), v', new_)
    ensures match b case None => Untouched(v, v') case Some(new_) => TakesBlock(v, v', new_)
  {
  }

  ghost predicate OnlyBlock(blocks: map<Block, Storage>, blocks': map<Block, Storage>, b: Block) {
    blocks'.Keys == blocks.Keys && forall c <- blocks | c != b :: blocks'[c] == blocks[c]
  }

  // ----- Writing an element -----

  ghost function Written(v: View, x: Item): View
    requires BlockOf(Tail(v)) < |v.homes| && v.homes[BlockOf(Tail(v))] in v.blocks
    requires |v.blocks[v.homes[BlockOf(Tail(v))]].elements| == BLOCK_SIZE
  {
    var b := v.homes[BlockOf(Tail(v))];
    var storage := v.blocks[b];
    v.(sent := v.sent + [x],
       blocks := v.blocks[b := storage.(elements := storage.elements[Tail(v) % BLOCK_SIZE := Some(x)])])
  }

  lemma TailBlock(v: View)
    requires Good(v) && Tail(v) < BLOCK_SIZE * |v.homes|
    ensures Needed(v, BlockOf(Tail(v))) && Held(v, BlockOf(Tail(v)))
  {
    assert Needed(v, BlockOf(Tail(v)));
  }

  lemma WriteElement(v: View, x: Item)
    requires Good(v) && Tail(v) < BLOCK_SIZE * |v.homes|
    ensures Needed(v, BlockOf(Tail(v))) && Held(v, BlockOf(Tail(v)))
    ensures Good(Written(v, x))
  {
    TailBlock(v);
    var t := BlockOf(Tail(v));
    var v' := Written(v, x);
    assert Tail(v) % BLOCK_SIZE == Tail(v) - BLOCK_SIZE * t;
    forall j: nat | Needed(v', j) ensures Held(v', j) {
      assert Needed(v, j) && Held(v, j) && Apart(v, j, t);
    }
    forall i: nat, j: nat ensures Apart(v', i, j) { assert Apart(v, i, j); }
  }

  // ----- Taking elements -----

  /** The next count elements are all in the block of the first. */
  predicate Run(v: View, count: nat) { count > 0 && v.head + count <= |v.sent| && BlockOf(v.head + count - 1) == BlockOf(v.head) }

  /** The block's memory once they are moved out and counted; the others are untouched. */
  ghost predicate Drains(v: View, count: nat, before: Storage, after: Storage) {
    && |after.elements| == |before.elements| == BLOCK_SIZE && after.done == before.done + count
    && forall k | v.head + count - BLOCK_SIZE * BlockOf(v.head) <= k < BLOCK_SIZE :: after.elements[k] == before.elements[k]
  }

  ghost function Taken(v: View, count: nat, after: Storage): View
    requires BlockOf(v.head) < |v.homes|
  {
    v.(head := v.head + count, blocks := v.blocks[v.homes[BlockOf(v.head)] := after])
  }

  lemma HeadBlock(v: View)
    requires Good(v) && v.head < |v.sent|
    ensures Needed(v, BlockOf(v.head)) && Held(v, BlockOf(v.head))
  {
    assert Needed(v, BlockOf(v.head));
  }

  /** The elements in hand are the ones sent. */
  lemma HeadElements(v: View, i: nat)
    requires Good(v) && v.head <= i < |v.sent| && BlockOf(i) == BlockOf(v.head)
    ensures Needed(v, BlockOf(v.head)) && Held(v, BlockOf(v.head))
    ensures v.blocks[v.homes[BlockOf(v.head)]].elements[i % BLOCK_SIZE] == Some(v.sent[i])
  {
    HeadBlock(v);
    assert i % BLOCK_SIZE == i - BLOCK_SIZE * BlockOf(v.head);
  }

  lemma HeldFrame(v: View, v': View, j: nat)
    requires j < |v.homes| && Held(v, j) && j < |v'.homes| && v'.homes[j] == v.homes[j]
    requires j in v'.ledger.live && v'.ledger.slots == v.ledger.slots && |v'.index.entries| == |v.index.entries|
    requires v'.index.entries[v.ledger.slots[j]].value == v.index.entries[v.ledger.slots[j]].value
    requires v.homes[j] in v'.blocks && v'.blocks[v.homes[j]] == v.blocks[v.homes[j]]
    requires Unused(v.homes[j], v'.size, v'.next, v'.free) == Unused(v.homes[j], v.size, v.next, v.free)
    requires v.head <= v'.head && v'.sent == v.sent && Drained(v'.head, j) == Drained(v.head, j)
    ensures Held(v', j)
  {
  }

  /** Blocks after the head's have lost nothing yet. */
  lemma LaterUntouched(v: View, count: nat, j: nat)
    requires Run(v, count) && v.head < BLOCK_SIZE * j + BLOCK_SIZE && j != BlockOf(v.head)
    ensures v.head + count < BLOCK_SIZE * j + BLOCK_SIZE && Drained(v.head + count, j) == Drained(v.head, j)
  {
  }

  lemma SomeHeld(v: View, count: nat, after: Storage)
    requires Good(v) && Run(v, count) && (v.head + count) % BLOCK_SIZE != 0
    requires Needed(v, BlockOf(v.head)) && Held(v, BlockOf(v.head))
    requires Drains(v, count, v.blocks[v.homes[BlockOf(v.head)]], after)
    ensures AllHeld(Taken(v, count, after))
  {
    var h, v' := BlockOf(v.head), Taken(v, count, after);
    hide IndexOk, PoolGood;
    forall j: nat | Needed(v', j) ensures Held(v', j) {
      assert Needed(v, j) && Held(v, j) && Apart(v, j, h);
      if j != h { LaterUntouched(v, count, j); HeldFrame(v, v', j); }
    }
  }

  lemma TakeSome(v: View, count: nat, after: Storage)
    requires Good(v) && Run(v, count) && (v.head + count) % BLOCK_SIZE != 0
    requires Needed(v, BlockOf(v.head)) && Held(v, BlockOf(v.head))
    requires Drains(v, count, v.blocks[v.homes[BlockOf(v.head)]], after)
    ensures after.done != BLOCK_SIZE && Good(Taken(v, count, after))
  {
    var v' := Taken(v, count, after);
    SomeHeld(v, count, after);
    hide AllHeld, IndexOk;
    forall j <- v'.ledger.live ensures Needed(v', j) { assert Needed(v, j); }
    forall i: nat, j: nat ensures Apart(v', i, j) { assert Apart(v, i, j); }
  }

  /** The last element of the block is among them: the block is cleared from the index and freed. */
  ghost function Emptied(v: View, count: nat, after: Storage): View
    requires BlockOf(v.head) < |v.homes| == |v.ledger.slots| && v.ledger.slots[BlockOf(v.head)] < |v.index.entries|
  {
    var h := BlockOf(v.head);
    Taken(v, count, after).(index := StoreValue(v.index, v.ledger.slots[h], Null),
                            ledger := v.ledger.(live := v.ledger.live - {h}), free := [v.homes[h]] + v.free)
  }

  lemma EmptyIndex(v: View, count: nat, after: Storage)
    requires Good(v) && Run(v, count) && (v.head + count) % BLOCK_SIZE == 0
    requires Needed(v, BlockOf(v.head)) && Held(v, BlockOf(v.head))
    ensures IndexGood(Emptied(v, count, after))
  {
    var h, v' := BlockOf(v.head), Emptied(v, count, after);
    ClearOk(v.index, v.ledger, |v.homes|, false, h);
    forall j <- v'.ledger.live ensures Needed(v', j) {
      assert Needed(v, j);
      LaterUntouched(v, count, j);
    }
  }

  lemma TakeLast(v: View, count: nat, after: Storage)
    requires Good(v) && Run(v, count) && (v.head + count) % BLOCK_SIZE == 0
    requires Needed(v, BlockOf(v.head)) && Held(v, BlockOf(v.head))
    requires Drains(v, count, v.blocks[v.homes[BlockOf(v.head)]], after)
    ensures after.done == BLOCK_SIZE && Good(Emptied(v, count, after))
  {
    var h, v' := BlockOf(v.head), Emptied(v, count, after);
    EmptyIndex(v, count, after);
    forall j: nat | Needed(v', j) ensures Held(v', j) {
      assert Needed(v, j) && Held(v, j) && Apart(v, j, h);
      LaterUntouched(v, count, j);
      LivesDistinct(v.index, v.ledger, j, h);
      HeldFrame(v, v', j);
    }
    forall i: nat, j: nat ensures Apart(v', i, j) { assert Apart(v, i, j); }
  }

  // ----- Looking a block up -----

  /** The key the tail points at is set, when the block before the next insertion is in the window. */
  lemma TailKeyIs(ix: Index, l: Ledger, n: nat, pending: bool)
    requires IndexOk(ix, l, n, pending) && l.lo < n <= l.top
    ensures RingOk(ix, Current(ix))
    ensures ix.entries[ix.headers[Current(ix)].index[ix.headers[Current(ix)].tail]].key == BLOCK_SIZE * (n - 1)
  {
    var g := Current(ix);
    assert RingOk(ix, g);
    assert Cong(ix.headers[g].tail, l.origins[g] + (n - 1), CapacityAt(g));
    assert ix.headers[g].tail == Pos(l, g, n - 1);
    assert CurrentEntry(ix, l, n - 1).key == BLOCK_SIZE * (n - 1);
  }

  /** The lookup arithmetic on the current ring. */
  lemma LookupCurrent(ix: Index, l: Ledger, n: nat, pending: bool, j: nat)
    requires IndexOk(ix, l, n, pending) && l.lo < n <= l.top && Current(ix) <= LAST_HEADER
    ensures RingOk(ix, Current(ix))
    ensures var g := Current(ix);
            var tail := ix.headers[g].tail;
            && ix.entries[ix.headers[g].index[tail]].key != INVALID_BLOCK_BASE
            && Pos(l, g, j) == LookupSlot(W(BLOCK_SIZE * j), W(ix.entries[ix.headers[g].index[tail]].key), tail, ix.headers[g].capacity)
  {
    var g := Current(ix);
    TailKeyIs(ix, l, n, pending);
    var tail := ix.headers[g].tail;
    CapacityFits(g, LAST_HEADER);
    var k: int :| CapacityAt(g) * k * BLOCK_SIZE == WORD;
    assert KeyFits(ix, l, g, tail);
    LookupFindsPos(l, g, tail, ix.entries[ix.headers[g].index[tail]].key, j, k);
  }

  /** The entry a lookup ends at has the block's base for a key, and a block. */
  lemma LiveEntry(ix: Index, l: Ledger, n: nat, pending: bool, j: nat)
    requires IndexOk(ix, l, n, pending) && j in l.live
    ensures IsHeader(ix, Current(ix)) && Pos(l, Current(ix), j) < ix.headers[Current(ix)].capacity
    ensures var e := ix.entries[Slot(ix, Current(ix), Pos(l, Current(ix), j))]; e.key == BLOCK_SIZE * j && e.value.At?
  {
    assert RingOk(ix, Current(ix)) && LiveAt(ix, l, j);
    assert CurrentEntry(ix, l, j).key == BLOCK_SIZE * j;
  }

  /** The slot of block j in the current ring. */
  ghost predicate AtSlot(v: View, slot: nat, j: nat) {
    0 < |v.index.headers| == |v.ledger.origins| && slot == Pos(v.ledger, Current(v.index), j)
  }

  /** The entry of the head's block, found by its slot, has the block; the next slot is the next block's. */
  lemma HeadSlot(v: View, slot: nat)
    requires Good(v) && v.head < |v.sent| && AtSlot(v, slot, BlockOf(v.head))
    ensures var j, g := BlockOf(v.head), Current(v.index);
            && j < |v.homes| && j < |v.ledger.slots| && IsHeader(v.index, g) && slot < v.index.headers[g].capacity
            && v.ledger.slots[j] < |v.index.entries| && Slot(v.index, g, slot) == v.ledger.slots[j]
            && v.index.entries[v.ledger.slots[j]].value == At(v.homes[j])
            && Res(slot + 1, v.index.headers[g].capacity) == Pos(v.ledger, g, j + 1)
  {
    HeadBlock(v);
    NeededInWindow(v, BlockOf(v.head));
    assert RingOk(v.index, Current(v.index));
    NextPos(v.ledger, Current(v.index), BlockOf(v.head));
  }

  /** A needed block can be looked up, and its entry is found. */
  lemma NeededInWindow(v: View, j: nat)
    requires Good(v) && Needed(v, j)
    ensures Held(v, j) && v.ledger.lo <= j < |v.homes| <= v.ledger.top
    ensures EntryOf(v.index, v.ledger, Current(v.index), j) == v.ledger.slots[j]
  {
    assert Held(v, j) && LiveAt(v.index, v.ledger, j);
  }

  // ----- Undoing a partial bulk enqueue -----

  /** m of the blocks first .. are out of the index again, and the tail is m slots back. */
  ghost predicate Rolling(v: View, first: nat, m: nat, ix: Index, l: Ledger) {
    && first + m <= |v.homes| && l == v.ledger.(live := l.live)
    && (forall j: nat :: j in l.live <==> j in v.ledger.live && !(first <= j < first + m))
    && IndexOk(ix, l, |v.homes| - m, false)
    && |ix.entries| == |v.index.entries| && 0 < |ix.headers| == |v.index.headers|
    && ix.headers[Current(ix)].index == v.index.headers[Current(ix)].index
    && (forall j | 0 <= j < |v.homes| && j in v.ledger.live :: j < |v.ledger.slots| && v.ledger.slots[j] < |v.index.entries|
          && ix.entries[v.ledger.slots[j]].value == if first <= j < first + m
             then Null else v.index.entries[v.ledger.slots[j]].value)
  }

  lemma RollingStart(v: View, first: nat)
    requires Good(v) && first <= |v.homes|
    ensures Rolling(v, first, 0, v.index, v.ledger)
  {
    forall j | 0 <= j < |v.homes| && j in v.ledger.live ensures j < |v.ledger.slots| && v.ledger.slots[j] < |v.index.entries| {
      assert LiveAt(v.index, v.ledger, j);
    }
  }

  /** The next block can be looked up: the tail is still in the window. */
  lemma RollingEntry(v: View, first: nat, m: nat, ix: Index, l: Ledger)
    requires Good(v) && Rolling(v, first, m, ix, l) && first + m < |v.homes| && v.head <= BLOCK_SIZE * first
    ensures var j := first + m;
            && l.lo < |v.homes| - m <= l.top && j in l.live && LiveAt(ix, l, j)
            && EntryOf(ix, l, Current(ix), j) == l.slots[j]
    ensures IndexOk(ix, l, |v.homes| - m, false) && Current(ix) <= LAST_HEADER
  {
    var j := first + m;
    assert Needed(v, first) && Held(v, first) && LiveAt(v.index, v.ledger, first);
    assert Needed(v, j) && Held(v, j);
    assert LiveAt(ix, l, j);
  }

  lemma ClearThenRewind(ix: Index, l: Ledger, n: nat, j: nat)
    requires IndexOk(ix, l, n, false) && j in l.live && n > 0
    ensures LiveAt(ix, l, j)
    ensures var ix' := StoreValue(ix, l.slots[j], Null);
            HeaderThere(ix') && IndexOk(StoreTail(ix', RewoundTail(ix')), l.(live := l.live - {j}), n - 1, false)
  {
    ClearOk(ix, l, n, false, j);
    var ix' := StoreValue(ix, l.slots[j], Null);
    assert RingOk(ix', Current(ix'));
    RewindTailOk(ix', l.(live := l.live - {j}), n - 1, false);
  }

  lemma OtherSlots(v: View, j: nat)
    requires Good(v) && j in v.ledger.live
    ensures j < |v.ledger.slots|
    ensures forall i | 0 <= i < |v.homes| && i in v.ledger.live && i != j ::
             i < |v.ledger.slots| && v.ledger.slots[i] != v.ledger.slots[j]
  {
    hide PoolGood;
    assert LiveAt(v.index, v.ledger, j);
    forall i | 0 <= i < |v.homes| && i in v.ledger.live && i != j
      ensures i < |v.ledger.slots| && v.ledger.slots[i] != v.ledger.slots[j]
    {
      LivesDistinct(v.index, v.ledger, i, j);
    }
  }

  /** One round of the rollback loop: look the next block up - forwards, while the tail goes
      backwards - clear its entry, rewind the tail. */
  lemma RollingStep(v: View, first: nat, m: nat, ix: Index, l: Ledger)
    requires Good(v) && Rolling(v, first, m, ix, l) && first + m < |v.homes| && v.head <= BLOCK_SIZE * first
    requires first + m in l.live && LiveAt(ix, l, first + m)
    ensures var j := first + m;
            var ix' := StoreValue(ix, l.slots[j], Null);
            && HeaderThere(ix') && Rolling(v, first, m + 1, StoreTail(ix', RewoundTail(ix')), l.(live := l.live - {j}))
  {
    ClearThenRewind(ix, l, |v.homes| - m, first + m);
    OtherSlots(v, first + m);
    hide IndexOk, Good, RingOk, LiveAt, Rings, IsHeader, RewoundTail;
  }

  ghost function Shortened(l: Ledger, n: nat): Ledger
    requires n <= |l.slots| && n <= |l.born|
  {
    l.(ins := n, slots := l.slots[..n], born := l.born[..n])
  }

  /** After the rollback the view is as before the first block was added, but for keys that no block
      uses and rings that may have grown; the blocks are free. */
  ghost function RolledBack(v: View, first: nat, ix: Index, l: Ledger): View
    requires first <= |v.homes| && |v.homes| == |l.slots| == |l.born|
  {
    v.(index := ix, ledger := Shortened(l, first), homes := v.homes[..first], free := Reversed(v.homes[first..]) + v.free)
  }

  lemma RolledIndex(v: View, first: nat, ix: Index, l: Ledger)
    requires Good(v) && first <= |v.homes| && Rolling(v, first, |v.homes| - first, ix, l) && v.head <= BLOCK_SIZE * first
    ensures IndexGood(RolledBack(v, first, ix, l))
  {
    var l', v' := Shortened(l, first), RolledBack(v, first, ix, l);
    if first < |v.homes| { NeededInWindow(v, first); }
    RingsKept(ix, ix, l, l');
    forall j: nat | first <= j < |v.homes| ensures CurrentEntry(ix, l', j).value == Null {
      RolledEntry(v, first, ix, l, j);
    }
    forall h, q | 0 <= h < |ix.headers| && 0 <= q < CapacityAt(h) ensures KeyFits(ix, l', h, q) {
      assert KeyFits(ix, l, h, q);
    }
    forall j | j in l'.live ensures LiveAt(ix, l', j) && Needed(v', j) {
      assert LiveAt(ix, l, j) && Needed(v, j);
    }
    forall h | 0 <= h < Current(ix) ensures TailKey(ix, l', h) != INVALID_BLOCK_BASE {
      assert TailKey(ix, l, h) != INVALID_BLOCK_BASE;
    }
    forall j: nat ensures CurrentEntry(ix, l', j) == CurrentEntry(ix, l, j) {}
    assert TailAt(ix, l', first) && Window(ix, l', false);
  }

  lemma RolledEntry(v: View, first: nat, ix: Index, l: Ledger, j: nat)
    requires Good(v) && first <= j < |v.homes| && Rolling(v, first, |v.homes| - first, ix, l) && v.head <= BLOCK_SIZE * first
    ensures CurrentEntry(ix, l, j).value == Null
  {
    NeededInWindow(v, j);
    assert RingOk(ix, Current(ix)) && RingOk(v.index, Current(ix));
    assert EntryOf(ix, l, Current(ix), j) == v.ledger.slots[j];
  }

  lemma RollBack(v: View, first: nat, ix: Index, l: Ledger)
    requires Good(v) && first <= |v.homes| && Rolling(v, first, |v.homes| - first, ix, l) && |v.sent| <= BLOCK_SIZE * first
    ensures Good(RolledBack(v, first, ix, l))
  {
    var v' := RolledBack(v, first, ix, l);
    RolledIndex(v, first, ix, l);
    forall j: nat | Needed(v', j) ensures Held(v', j) {
      assert Needed(v, j) && Held(v, j);
      RolledHeld(v, first, ix, l, j);
    }
    forall i: nat, j: nat ensures Apart(v', i, j) { assert Apart(v, i, j); }
    RolledPool(v, first, ix, l);
  }

  lemma RolledHeld(v: View, first: nat, ix: Index, l: Ledger, j: nat)
    requires Good(v) && first <= |v.homes| && Rolling(v, first, |v.homes| - first, ix, l) && j < first && Needed(v, j)
    ensures Held(RolledBack(v, first, ix, l), j)
  {
    assert Held(v, j);
    forall b <- v.homes[first..] ensures b != v.homes[j] || v.head > BLOCK_SIZE * first {
      var i :| first <= i < |v.homes| && v.homes[i] == b;
      assert Apart(v, i, j);
    }
  }

  lemma RolledPool(v: View, first: nat, ix: Index, l: Ledger)
    requires Good(v) && first <= |v.homes| && v.head <= BLOCK_SIZE * first && |v.homes| == |l.slots| == |l.born|
    ensures var v' := RolledBack(v, first, ix, l); PoolGood(v'.blocks, v'.size, v'.next, v'.free)
  {
    var chain := v.homes[first..];
    ChainApart(v, first);
    var free := Reversed(chain) + v.free;
    forall b <- free ensures b in v.blocks && !(v.next <= b < v.size) {
      if b in chain { var k :| 0 <= k < |chain| && chain[k] == b; }
    }
    forall i, k | 0 <= i < k < |free| ensures free[i] != free[k] {
      if i < |chain| && k >= |chain| {
        assert Reversed(chain)[i] == chain[|chain| - 1 - i];
        assert free[k] in v.free;
      }
    }
  }

  /** The blocks from `first` on are distinct, and in no pool. */
  lemma ChainApart(v: View, first: nat)
    requires Good(v) && first <= |v.homes| && v.head <= BLOCK_SIZE * first
    ensures var chain := v.homes[first..];
            && (forall k | 0 <= k < |chain| :: chain[k] in v.blocks && !Unused(chain[k], v.size, v.next, v.free))
            && (forall i, k | 0 <= i < k < |chain| :: chain[i] != chain[k])
  {
    var chain := v.homes[first..];
    forall k | 0 <= k < |chain| ensures chain[k] in v.blocks && !Unused(chain[k], v.size, v.next, v.free) {
      assert Needed(v, first + k) && Held(v, first + k);
    }
    forall i, k | 0 <= i < k < |chain| ensures chain[i] != chain[k] { assert Apart(v, first + i, first + k); }
  }

  /** All that undoing needs and gives. */
  lemma UndoView(v: View, first: nat, ix: Index, l: Ledger)
    requires Good(v) && first <= |v.homes| && Rolling(v, first, |v.homes| - first, ix, l) && |v.sent| <= BLOCK_SIZE * first
    requires Chained(v.blocks, v.homes, first)
    ensures |v.homes| == |l.slots| == |l.born| && Good(RolledBack(v, first, ix, l))
    ensures Linked(v.blocks, if first < |v.homes| then Some(v.homes[first]) else None, v.homes[first..])
    ensures PoolGood(v.blocks, v.size, v.next, v.free)
    ensures forall k | 0 <= k < |v.homes| - first ::
             v.homes[first..][k] in v.blocks && !Unused(v.homes[first..][k], v.size, v.next, v.free)
    ensures forall i, k | 0 <= i < k < |v.homes| - first :: v.homes[first..][i] != v.homes[first..][k]
    ensures l.slots == v.ledger.slots && forall j: nat :: j in l.live <==> j in v.ledger.live && j < first
  {
    RollBack(v, first, ix, l);
    ChainApart(v, first);
    ChainedIsLinked(v.blocks, v.homes, first);
    forall j: nat | j in v.ledger.live ensures j < |v.homes| { assert Needed(v, j); }
  }

  // ----- Reserving blocks for a bulk enqueue -----

  /** How many blocks t elements take. */
  function BlocksFor(t: nat): nat { (t + BLOCK_SIZE - 1) / BLOCK_SIZE }

  lemma SettledBlocks(v: View)
    requires Good(v) && Settled(v)
    ensures |v.homes| == BlocksFor(|v.sent|)
  {
  }

  /** The links of blocks a, a + 1, .. in order. */
  ghost predicate Chained(blocks: map<Block, Storage>, homes: seq<Block>, a: nat) {
    && (forall j | a <= j < |homes| - 1 :: homes[j] in blocks && blocks[homes[j]].next == Some(homes[j + 1]))
    && (a < |homes| ==> homes[|homes| - 1] in blocks && blocks[homes[|homes| - 1]].next == None)
  }

  lemma {:induction false} ChainedIsLinked(blocks: map<Block, Storage>, homes: seq<Block>, a: nat)
    requires Chained(blocks, homes, a) && a <= |homes|
    ensures Linked(blocks, if a < |homes| then Some(homes[a]) else None, homes[a..])
    decreases |homes| - a
  {
    if a < |homes| {
      ChainedIsLinked(blocks, homes, a + 1);
      assert homes[a..][1..] == homes[a + 1..];
    }
  }

  /** The links so far, with the last one open. */
  ghost predicate LinkedSoFar(blocks: map<Block, Storage>, homes: seq<Block>, a: nat) {
    forall j | a <= j < |homes| - 1 :: homes[j] in blocks && blocks[homes[j]].next == Some(homes[j + 1])
  }

  /** A new block is hung on the last one. */
  lemma ChainMore(v: View, blocks': map<Block, Storage>, b: Block, a: nat)
    requires Good(v) && a <= |v.homes| && v.head < BLOCK_SIZE * a + BLOCK_SIZE && LinkedSoFar(v.blocks, v.homes, a)
    requires b in blocks' && blocks'[b].next == None
    requires a < |v.homes| ==> v.homes[|v.homes| - 1] in blocks' && blocks'[v.homes[|v.homes| - 1]].next == Some(b)
    requires forall c <- v.blocks | c != b && (a < |v.homes| ==> c != v.homes[|v.homes| - 1]) ::
             c in blocks' && blocks'[c] == v.blocks[c]
    requires forall j: nat {:trigger v.homes[j]} | Needed(v, j) :: v.homes[j] != b
    ensures Chained(blocks', v.homes + [b], a)
  {
    forall j | a <= j < |v.homes| - 1 ensures v.homes[j] in blocks' && blocks'[v.homes[j]].next == Some(v.homes[j + 1]) {
      assert Needed(v, j) && Apart(v, j, |v.homes| - 1);
    }
  }

  /** Linking blocks concerns no element. */
  lemma LinkKeeps(v: View, b: Block, next: Option<Block>)
    requires Good(v) && b in v.blocks
    ensures Good(v.(blocks := v.blocks[b := v.blocks[b].(next := next)]))
  {
    var v' := v.(blocks := v.blocks[b := v.blocks[b].(next := next)]);
    forall j: nat | Needed(v', j) ensures Held(v', j) { assert Needed(v, j) && Held(v, j); }
    forall i: nat, j: nat ensures Apart(v', i, j) { assert Apart(v, i, j); }
  }

  ghost predicate SameElements(blocks: map<Block, Storage>, blocks': map<Block, Storage>, c: Block) {
    c in blocks && c in blocks' && blocks'[c].elements == blocks[c].elements && blocks'[c].done == blocks[c].done
  }

  /** Blocks in use stay in use and keep their elements. */
  ghost predicate InUseKept(v: View, v': View, c: Block) {
    c in v.blocks && !Unused(c, v.size, v.next, v.free) ==>
      SameElements(v.blocks, v'.blocks, c) && !Unused(c, v'.size, v'.next, v'.free)
  }

  /** Blocks that were not in use are so again, but for those in `taken`. */
  ghost predicate SpareKept(v: View, v': View, taken: seq<Block>, c: Block) {
    c in v'.blocks && (c in v.blocks ==> Unused(c, v.size, v.next, v.free)) ==> Unused(c, v'.size, v'.next, v'.free) || c in taken
  }

  /** Since v, exactly the blocks in `taken` have gone from spare to used. */
  ghost predicate TookOnly(v: View, v': View, taken: seq<Block>) {
    && (forall c {:trigger InUseKept(v, v', c)} :: InUseKept(v, v', c))
    && (forall c {:trigger SpareKept(v, v', taken, c)} :: SpareKept(v, v', taken, c))
    && (forall b <- taken :: b in v.blocks ==> Unused(b, v.size, v.next, v.free))
  }

  lemma TookMore(v: View, v1: View, v2: View, taken: seq<Block>, b: Block)
    requires TookOnly(v, v1, taken) && TakesBlock(v1, v2, b)
    ensures TookOnly(v, v2, taken + [b])
  {
    assert InUseKept(v, v1, b);
    forall c ensures InUseKept(v, v2, c) && SpareKept(v, v2, taken + [b], c) {
      assert InUseKept(v, v1, c) && SpareKept(v, v1, taken, c);
    }
  }

  lemma TookLinked(v: View, v1: View, taken: seq<Block>, b: Block, next: Option<Block>)
    requires TookOnly(v, v1, taken) && b in v1.blocks
    ensures TookOnly(v, v1.(blocks := v1.blocks[b := v1.blocks[b].(next := next)]), taken)
  {
    var v2 := v1.(blocks := v1.blocks[b := v1.blocks[b].(next := next)]);
    forall c ensures InUseKept(v, v2, c) && SpareKept(v, v2, taken, c) {
      assert InUseKept(v, v1, c) && SpareKept(v, v1, taken, c);
    }
  }

  /** Giving all of them back leaves nothing taken. */
  lemma TookNothing(v: View, v1: View, v2: View, taken: seq<Block>)
    requires TookOnly(v, v1, taken) && v2.blocks == v1.blocks && v2.size == v1.size && v2.next == v1.next
    requires v2.free == Reversed(taken) + v1.free
    ensures TookOnly(v, v2, [])
  {
    forall c ensures InUseKept(v, v2, c) && SpareKept(v, v2, [], c) {
      assert InUseKept(v, v1, c) && SpareKept(v, v1, taken, c);
    }
  }

  /** The first block whose link matters: the partly filled one, or the first new one. */
  function FirstLinked(startTailIndex: nat, first: nat): nat {
    if startTailIndex % BLOCK_SIZE != 0 && first > 0 then first - 1 else first
  }

  ghost predicate IsPrefixOf(a: seq<Block>, b: seq<Block>) { |a| <= |b| && b[..|a|] == a }

  /** The blocks before `first` are indexed as they were. */
  ghost predicate ReservedLedger(l: Ledger, l': Ledger, first: nat) {
    && |l.slots| == first <= |l'.slots| && l'.slots[..first] == l.slots
    && forall j: nat :: j in l'.live && j < first <==> j in l.live
  }

  /** A bulk enqueue that began in v, at startTailIndex, has got as far as v'. */
  ghost predicate Reserved(v: View, v': View, startTailIndex: nat, firstAllocatedBlock: Option<Block>) {
    var n := |v.homes|;
    && Good(v') && IsPrefixOf(v.homes, v'.homes) && v'.head == v.head <= |v.sent| == startTailIndex
       && v'.sent == v.sent && n == BlocksFor(|v.sent|)
    && v.head < BLOCK_SIZE * FirstLinked(startTailIndex, n) + BLOCK_SIZE
    && LinkedSoFar(v'.blocks, v'.homes, FirstLinked(startTailIndex, n)) && (n < |v'.homes| ==> Chained(v'.blocks, v'.homes, n))
    && TookOnly(v, v', v'.homes[n..]) && ReservedLedger(v.ledger, v'.ledger, n)
    && firstAllocatedBlock == if n < |v'.homes| then Some(v'.homes[n]) else None
  }

  lemma ReserveStart(v: View)
    requires Good(v) && Settled(v)
    ensures Reserved(v, v, |v.sent|, None)
  {
    assert v.homes[|v.homes|..] == [];
    forall j <- v.ledger.live ensures j < |v.homes| { assert Needed(v, j); }
  }

  /** One more block. */
  lemma ReserveMore(v: View, v1: View, v2: View, startTailIndex: nat, first1: Option<Block>, b: Block)
    requires Reserved(v, v1, startTailIndex, first1)
    requires Good(v2) && v2.head == v1.head && v2.sent == v1.sent && v2.homes == v1.homes + [b]
    requires TookOnly(v, v2, v1.homes[|v.homes|..] + [b]) && Chained(v2.blocks, v2.homes, FirstLinked(startTailIndex, |v.homes|))
    requires v2.ledger.live == v1.ledger.live + {|v1.homes|} && |v2.ledger.slots| == |v2.homes|
    requires v2.ledger.slots[..|v1.homes|] == v1.ledger.slots
    ensures Reserved(v, v2, startTailIndex, if first1.None? then Some(b) else first1)
  {
    hide Good, TookOnly;
    assert v2.homes[|v.homes|..] == v1.homes[|v.homes|..] + [b];
  }

  /** The blocks once b ends the chain, hung on `last` if there is one before it. */
  function Hung(blocks: map<Block, Storage>, b: Block, last: Option<Block>): map<Block, Storage>
    requires b in blocks && (last.Some? ==> last.value in blocks)
  {
    var ended := blocks[b := blocks[b].(next := None)];
    match last case None => ended case Some(c) => ended[c := ended[c].(next := Some(b))]
  }

  /** The block that the next one is to hang on. */
  function HangsOn(homes: seq<Block>, startTailIndex: nat, first: nat): Option<Block> {
    if FirstLinked(startTailIndex, first) < |homes| then Some(homes[|homes| - 1]) else None
  }

  /** A block has been obtained, and is to be hung. */
  lemma BeforeHanging(v: View, v0: View, v1: View, startTailIndex: nat, first: Option<Block>, b: Block)
    requires Reserved(v, v0, startTailIndex, first) && TakesBlock(v0, v1, b)
    ensures TookOnly(v, v1, v0.homes[|v.homes|..] + [b])
    ensures var last := HangsOn(v0.homes, startTailIndex, |v.homes|); b in v1.blocks && (last.Some? ==> last.value in v1.blocks)
    ensures HangsOn(v0.homes, startTailIndex, |v.homes|).Some? <==> startTailIndex % BLOCK_SIZE != 0 || first.Some?
    ensures Good(v0) && v0.head <= |v.sent| == startTailIndex
  {
    hide IndexOk, PoolGood, Apart, TookOnly;
    TookMore(v, v0, v1, v0.homes[|v.homes|..], b);
    NeededNotUnused(v0);
    if HangsOn(v0.homes, startTailIndex, |v.homes|).Some? { assert Needed(v0, |v0.homes| - 1); }
  }

  /** Hung: one more block is reserved. */
  lemma AfterHanging(v: View, v0: View, v1: View, v2: View, startTailIndex: nat, first: Option<Block>, b: Block)
    requires Reserved(v, v0, startTailIndex, first) && TakesBlock(v0, v1, b) && v1.homes == v0.homes + [b]
    requires v1.ledger.live == v0.ledger.live + {|v0.homes|} && |v1.ledger.slots| == |v1.homes|
    requires v1.ledger.slots[..|v0.homes|] == v0.ledger.slots && v1.head == v0.head && v1.sent == v0.sent
    requires var last := HangsOn(v0.homes, startTailIndex, |v.homes|);
             b in v1.blocks && (last.Some? ==> last.value in v1.blocks) && v2 == v1.(blocks := Hung(v1.blocks, b, last))
    requires Good(v2) && TookOnly(v, v2, v0.homes[|v.homes|..] + [b])
    ensures Reserved(v, v2, startTailIndex, if first.None? then Some(b) else first)
  {
    NeededNotUnused(v0);
    forall j: nat | Needed(v0, j) ensures v0.homes[j] != b {}
    ChainMore(v0, v2.blocks, b, FirstLinked(startTailIndex, |v.homes|));
    ReserveMore(v, v0, v2, startTailIndex, first, b);
  }

  /** No more blocks: nothing has changed. */
  lemma ReserveSame(v: View, v1: View, v2: View, startTailIndex: nat, first1: Option<Block>)
    requires Reserved(v, v1, startTailIndex, first1) && Good(v2) && Untouched(v1, v2) && v2.head == v1.head && v2.size == v1.size
    ensures Reserved(v, v2, startTailIndex, first1)
  {
    forall c ensures InUseKept(v, v2, c) && SpareKept(v, v2, v2.homes[|v.homes|..], c) {
      assert InUseKept(v, v1, c) && SpareKept(v, v1, v1.homes[|v.homes|..], c);
    }
  }

  // ----- Writing a bulk of elements -----

  ghost predicate SameLinks(blocks: map<Block, Storage>, blocks': map<Block, Storage>) {
    blocks'.Keys == blocks.Keys && forall c <- blocks :: blocks'[c].next == blocks[c].next
  }

  /** The write loop is at index `current`, in block jb; the last block is the one newTail needs. */
  ghost predicate AtWrite(v: View, jb: nat, current: nat, newTail: nat) {
    && Good(v) && |v.sent| == current <= newTail && |v.homes| == BlocksFor(newTail)
    && LinkedSoFar(v.blocks, v.homes, jb)
    && (current < newTail ==> jb < |v.homes| && BlockOf(current) == jb)
    && (current == newTail && |v.homes| > 0 ==> jb == |v.homes| - 1)
  }

  lemma LinksKept(blocks: map<Block, Storage>, blocks': map<Block, Storage>, homes: seq<Block>, a: nat)
    requires LinkedSoFar(blocks, homes, a) && SameLinks(blocks, blocks')
    ensures LinkedSoFar(blocks', homes, a) && LinkedSoFar(blocks', homes, a + 1)
  {
  }

  function RoundEnd(current: nat): nat { current / BLOCK_SIZE * BLOCK_SIZE + BLOCK_SIZE }

  /** Where a round of the loop stops. */
  lemma WriteRound(v: View, jb: nat, current: nat, newTail: nat)
    requires AtWrite(v, jb, current, newTail)
    ensures CircularLess(W(newTail), W(RoundEnd(current))) <==> newTail < RoundEnd(current)
    ensures var stop := if newTail < RoundEnd(current) then newTail else RoundEnd(current);
            && Good(v) && current == |v.sent| <= stop <= newTail <= BLOCK_SIZE * |v.homes|
            && (current < stop ==> BlockOf(current) == BlockOf(stop - 1) == jb < |v.homes|)
  {
    CircularLessWindow(newTail, RoundEnd(current));
  }

  /** And what follows it: the loop is done exactly when it was in the last block. */
  lemma WriteNext(v: View, v': View, jb: nat, current: nat, stop: nat, newTail: nat)
    requires AtWrite(v, jb, current, newTail) && stop == if newTail < RoundEnd(current) then newTail else RoundEnd(current)
    requires Good(v') && v'.homes == v.homes && v'.head == v.head && |v'.sent| == stop && SameLinks(v.blocks, v'.blocks)
    ensures stop == newTail ==> (|v.homes| > 0 ==> jb == |v.homes| - 1) && AtWrite(v', jb, stop, newTail)
    ensures stop != newTail ==> jb + 1 < |v.homes| && v.homes[jb] != v.homes[|v.homes| - 1] && AtWrite(v', jb + 1, stop, newTail)
    ensures stop != newTail ==> v.homes[jb] in v'.blocks && v'.blocks[v.homes[jb]].next == Some(v.homes[jb + 1])
  {
    LinksKept(v.blocks, v'.blocks, v.homes, jb);
    if stop != newTail { assert Apart(v, jb, |v.homes| - 1); }
  }

  lemma SentBounds(v: View)
    requires Good(v)
    ensures v.head <= |v.sent| <= BLOCK_SIZE * |v.homes|
  {
  }

  /** The loop begins at the partly filled block, or at the first new one. */
  lemma WriteStart(v: View, v': View, startTailIndex: nat, first: Option<Block>, newTail: nat)
    requires Reserved(v, v', startTailIndex, first) && startTailIndex <= newTail && |v'.homes| == BlocksFor(newTail)
    ensures |v.homes| <= |v'.homes| && (first.Some? <==> |v.homes| < |v'.homes|)
    ensures var jb := if startTailIndex % BLOCK_SIZE == 0 && first.Some? then |v.homes| else if |v.homes| == 0
            then 0 else |v.homes| - 1;
            && AtWrite(v', jb, startTailIndex, newTail)
            && (first.Some? && jb == |v.homes| ==> first == Some(v'.homes[jb]))
            && (|v.homes| > 0 && jb == |v.homes| - 1 ==> v'.homes[jb] == v.homes[jb])
            && (|v'.homes| > 0 ==> jb < |v'.homes|)
  {
    if |v.homes| > 0 { assert v'.homes[..|v.homes|][|v.homes| - 1] == v.homes[|v.homes| - 1]; }
  }

  predicate InLastBlock(index: nat, n: nat) { index < BLOCK_SIZE * n && BlockOf(index) == n - 1 }

  lemma PartlyFilled(v: View)
    requires Good(v) && Settled(v) && |v.sent| % BLOCK_SIZE != 0
    ensures InLastBlock(|v.sent|, |v.homes|)
  {
  }

  lemma LastBlockIsMine(v: View, index: nat)
    requires InLastBlock(index, |v.homes|) && v.head <= index
    ensures Mine(v, v.homes[|v.homes| - 1]) && BLOCK_SIZE * (|v.homes| - 1) <= index
  {
    MineByHome(v, |v.homes| - 1);
  }

  // ----- Other producers of the same pool -----

  /** A block in use, but not by this producer. */
  ghost predicate Foreign(v: View, c: Block) { c in v.blocks && !Unused(c, v.size, v.next, v.free) && !Mine(v, c) }

  /** What other producers rely on: their blocks stay in use and keep their elements and counts, and
      this producer does not take them. */
  ghost predicate LeavesOthers(v: View, v': View) {
    && v'.size == v.size
    && forall c {:trigger Foreign(v, c)} | Foreign(v, c) :: Foreign(v', c) && SameElements(v.blocks, v'.blocks, c)
  }

  lemma LeavesThrough(v: View, v1: View, v2: View)
    requires LeavesOthers(v, v1) && LeavesOthers(v1, v2)
    ensures LeavesOthers(v, v2)
  {
    hide Foreign;
    forall c | Foreign(v, c) ensures Foreign(v2, c) && SameElements(v.blocks, v2.blocks, c) { assert Foreign(v1, c); }
  }

  lemma LeavesSelf(v: View)
    ensures LeavesOthers(v, v)
  {
  }

  lemma UntouchedLeaves(v: View, v': View)
    requires Untouched(v, v') && v'.head == v.head && v'.size == v.size
    ensures LeavesOthers(v, v')
  {
    SameMine(v, v');
    hide Mine;
  }

  lemma ReservedLeaves(v: View, v': View, startTailIndex: nat, first: Option<Block>)
    requires Reserved(v, v', startTailIndex, first) && v'.size == v.size
    ensures LeavesOthers(v, v')
  {
    hide Good;
    assert v'.homes == v.homes + v'.homes[|v.homes|..];
    TookLeaves(v, v', v'.homes[|v.homes|..]);
  }

  lemma SameMine(v: View, v': View)
    requires v'.homes == v.homes && v.head <= v'.head
    ensures forall c | Mine(v', c) :: Mine(v, c)
  {
    forall c | Mine(v', c) ensures Mine(v, c) {
      var j: nat :| Needed(v', j) && v'.homes[j] == c;
      assert Needed(v, j);
    }
  }

  lemma MineByHome(v: View, j: nat)
    requires Needed(v, j)
    ensures Mine(v, v.homes[j])
  {
  }

  /** Steps that change at most one block, of the producer's own, and may free it. */
  lemma OwnBlockLeaves(v: View, v': View, b: Block)
    requires Mine(v, b) && v'.homes == v.homes && v.head <= v'.head && v'.size == v.size && v'.next == v.next
    requires v'.free == v.free || v'.free == [b] + v.free
    requires forall c <- v.blocks :: c in v'.blocks && (c != b ==> v'.blocks[c] == v.blocks[c])
    ensures LeavesOthers(v, v')
  {
    SameMine(v, v');
    hide Mine;
  }

  /** The blocks added since v were spare in v. */
  lemma TookLeaves(v: View, v': View, taken: seq<Block>)
    requires TookOnly(v, v', taken) && v'.homes == v.homes + taken && v'.head == v.head && v'.size == v.size
    ensures LeavesOthers(v, v')
  {
    forall c | Foreign(v, c) ensures Foreign(v', c) && SameElements(v.blocks, v'.blocks, c) {
      assert InUseKept(v, v', c);
      if Mine(v', c) {
        var j: nat :| Needed(v', j) && v'.homes[j] == c;
        if j < |v.homes| { assert Needed(v, j); }
        assert false;
      }
    }
  }

  lemma TakesLeaves(v: View, v': View, b: Block)
    requires TakesBlock(v, v', b) && v'.homes == v.homes + [b] && v'.head == v.head
    ensures LeavesOthers(v, v')
  {
    forall c ensures InUseKept(v, v', c) && SpareKept(v, v', [b], c) {}
    TookLeaves(v, v', [b]);
  }

  /** Two producers share no block. */
  ghost predicate Separate(v: View, u: View) { forall c {:trigger Mine(v, c)} :: !(Mine(v, c) && Mine(u, c)) }

  lemma PoolOf(v: View)
    requires Good(v)
    ensures PoolGood(v.blocks, v.size, v.next, v.free)
  {
  }

  lemma NewIsSeparate(v: View, u: View)
    requires v.homes == []
    ensures Separate(v, u) && Separate(u, v)
  {
  }

  ghost predicate SamePool(v: View, u: View) { u.blocks == v.blocks && u.size == v.size && u.next == v.next && u.free == v.free }

  ghost function InPool(u: View, v': View): View { u.(blocks := v'.blocks, size := v'.size, next := v'.next, free := v'.free) }

  /** A step of v's producer leaves u's as it was, and apart. */
  lemma OtherKept(v: View, v': View, u: View)
    requires Good(u) && Good(v') && SamePool(v, u) && Separate(v, u) && LeavesOthers(v, v')
    ensures Good(InPool(u, v')) && Separate(v', InPool(u, v'))
  {
    var u' := InPool(u, v');
    forall j: nat | Needed(u', j) ensures Held(u', j) && !Mine(v', u.homes[j]) {
      assert Needed(u, j) && Held(u, j);
      MineByHome(u, j);
      assert Foreign(v, u.homes[j]);
    }
    forall i: nat, j: nat ensures Apart(u', i, j) { assert Apart(u, i, j); }
    forall c ensures !(Mine(v', c) && Mine(u', c)) {
      if Mine(u', c) { var j: nat :| Needed(u', j) && u'.homes[j] == c; }
    }
  }

  lemma OthersApart(u: View, w: View, v': View)
    requires Separate(u, w)
    ensures Separate(InPool(u, v'), InPool(w, v'))
  {
    SameMine(u, InPool(u, v'));
    SameMine(w, InPool(w, v'));
    hide Mine;
  }
}
