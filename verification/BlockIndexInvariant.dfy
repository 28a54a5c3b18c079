module BlockIndexInvariant {
  /* What every store to the block index keeps, and why lookups stay correct.

     Block number j is the block with base BLOCK_SIZE * j.  In each ring, block j belongs in the
     slot `origin + j` modulo the capacity, for an origin fixed when the ring is built. */

  import opened CircularArithmetic
  import opened BlockIndex

  /** Bookkeeping for the proof; no operation reads it.  Blocks lo .. top have their exact key in
      the current ring; blocks ins .. are not (or no longer) in it; `slots` and `born` record the
      entry and the newest header at the time each block was put in; `live` are the blocks whose
      value has not been cleared. */
  datatype Ledger = Ledger(
    origins: seq<nat>, lo: nat, top: nat, ins: nat,
    slots: seq<nat>, born: seq<nat>, live: set<nat>)

  ghost function CapacityAt(h: nat): (c: nat)
    ensures c >= IMPLICIT_INITIAL_INDEX_SIZE
  {
    if h == 0 then IMPLICIT_INITIAL_INDEX_SIZE else 2 * CapacityAt(h - 1)
  }

  lemma {:induction false} CapacityDivides(h: nat, g: nat)
    requires h <= g
    ensures exists n: nat :: n > 0 && CapacityAt(g) == n * CapacityAt(h)
  {
    if h == g {
      assert CapacityAt(g) == 1 * CapacityAt(h);
    } else {
      CapacityDivides(h, g - 1);
      var n: nat :| n > 0 && CapacityAt(g - 1) == n * CapacityAt(h);
      assert CapacityAt(g) == (2 * n) * CapacityAt(h);
    }
  }

  /** Six doublings at a time. */
  lemma Doubled(h: nat, c: nat) returns (h': nat, c': nat)
    requires CapacityAt(h) == c
    ensures h' == h + 6 && c' == 64 * c && CapacityAt(h') == c'
  {
    h', c' := h + 6, 64 * c;
    assert CapacityAt(h + 3) == 2 * CapacityAt(h + 2) == 4 * CapacityAt(h + 1) == 8 * c;
    assert CapacityAt(h + 6) == 2 * CapacityAt(h + 5) == 4 * CapacityAt(h + 4) == 8 * CapacityAt(h + 3);
  }

  lemma LastCapacity(last: nat)
    requires last == LAST_HEADER
    ensures CapacityAt(last) * BLOCK_SIZE == WORD
  {
    var h, c := Doubled(0, 32);
    h, c := Doubled(h, c);
    h, c := Doubled(h, c);
    h, c := Doubled(h, c);
    h, c := Doubled(h, c);
    h, c := Doubled(h, c);
    h, c := Doubled(h, c);
    h, c := Doubled(h, c);
    h, c := Doubled(h, c);
  }

  lemma Regroup(c: nat, n: int)
    requires (n * c) * BLOCK_SIZE == WORD
    ensures c * n * BLOCK_SIZE == WORD
  {
  }

  /** Every ring size the producer can reach is a power of two small enough for the slot arithmetic. */
  lemma CapacityFits(h: nat, last: nat)
    requires h <= last == LAST_HEADER
    ensures exists n: int :: CapacityAt(h) * n * BLOCK_SIZE == WORD
  {
    LastCapacity(last);
    CapacityDivides(h, last);
    var n: nat :| n > 0 && CapacityAt(last) == n * CapacityAt(h);
    Regroup(CapacityAt(h), n);
  }

  lemma CongOlder(a: int, b: int, h: nat, g: nat)
    requires h <= g && Cong(a, b, CapacityAt(g))
    ensures Cong(a, b, CapacityAt(h))
  {
    CapacityDivides(h, g);
    var n: nat :| n > 0 && CapacityAt(g) == n * CapacityAt(h);
    CongCoarser(a, b, CapacityAt(h), n);
  }

  // ----- The invariant -----

  ghost predicate RingOk(ix: Index, h: nat) {
    && IsHeader(ix, h)
    && ix.headers[h].capacity == CapacityAt(h)
    && ix.headers[h].tail < CapacityAt(h)
    && forall q | 0 <= q < CapacityAt(h) :: ix.headers[h].index[q] < CapacityAt(h)
  }

  ghost predicate Rings(ix: Index, l: Ledger) {
    && 0 < |ix.headers| == |l.origins|
    && |ix.entries| == CapacityAt(Current(ix))
    && (forall h {:trigger RingOk(ix, h)} | 0 <= h < |ix.headers| :: RingOk(ix, h))
    && Injective(ix.headers[Current(ix)].index)
  }

  ghost predicate Injective(index: seq<nat>) {
    forall q, p | 0 <= q < p < |index| :: index[q] != index[p]
  }

  /** The slot of block j in ring h. */
  ghost function Pos(l: Ledger, h: nat, j: nat): (q: nat)
    requires h < |l.origins|
    ensures q < CapacityAt(h)
  {
    Res(l.origins[h] + j, CapacityAt(h))
  }

  /** The entry of block j in ring h. */
  ghost function EntryOf(ix: Index, l: Ledger, h: nat, j: nat): (e: nat)
    requires Rings(ix, l) && h < |ix.headers|
    ensures e < |ix.entries|
  {
    assert RingOk(ix, h);
    ix.headers[h].index[Pos(l, h, j)]
  }

  /** An entry shared by an old ring and the current one has the same offset from both origins. */
  ghost predicate AlignedAt(ix: Index, l: Ledger, h: nat, q: nat, p: nat)
    requires Rings(ix, l) && h < |ix.headers| && q < CapacityAt(h) && p < CapacityAt(Current(ix))
  {
    assert RingOk(ix, h) && RingOk(ix, Current(ix));
    var same := ix.headers[h].index[q] == ix.headers[Current(ix)].index[p];
    same ==> Cong(q - l.origins[h], p - l.origins[Current(ix)], CapacityAt(h))
  }

  ghost predicate Aligned(ix: Index, l: Ledger)
    requires Rings(ix, l)
  {
    forall h, q, p {:trigger AlignedAt(ix, l, h, q, p)} |
      0 <= h < |ix.headers| && 0 <= q < CapacityAt(h) && 0 <= p < CapacityAt(Current(ix)) :: AlignedAt(ix, l, h, q, p)
  }

  /** A key that is set names a block that belongs in the slot. */
  ghost predicate Fits(key: nat, origin: nat, q: nat, capacity: nat)
    requires capacity > 0
  {
    key != INVALID_BLOCK_BASE ==> key % BLOCK_SIZE == 0 && Cong(origin + key / BLOCK_SIZE, q, capacity)
  }

  ghost predicate KeyFits(ix: Index, l: Ledger, h: nat, q: nat)
    requires Rings(ix, l) && h < |ix.headers| && q < CapacityAt(h)
  {
    assert RingOk(ix, h);
    Fits(ix.entries[ix.headers[h].index[q]].key, l.origins[h], q, CapacityAt(h))
  }

  ghost predicate KeysFit(ix: Index, l: Ledger)
    requires Rings(ix, l)
  {
    forall h, q {:trigger KeyFits(ix, l, h, q)} | 0 <= h < |ix.headers| && 0 <= q < CapacityAt(h) :: KeyFits(ix, l, h, q)
  }

  ghost function CurrentEntry(ix: Index, l: Ledger, j: nat): Entry
    requires Rings(ix, l)
  {
    ix.entries[EntryOf(ix, l, Current(ix), j)]
  }

  /** The contents of the current ring, block by block; `pending` excuses the value of the one
      entry whose key is set but whose block is not there yet. */
  ghost predicate Window(ix: Index, l: Ledger, pending: bool)
    requires Rings(ix, l)
  {
    && l.lo <= l.ins <= l.top <= l.lo + CapacityAt(Current(ix))
    && (forall j | l.lo <= j < l.top :: CurrentEntry(ix, l, j).key == BLOCK_SIZE * j)
    && (forall j | l.top <= j < l.lo + CapacityAt(Current(ix)) :: CurrentEntry(ix, l, j).key == INVALID_BLOCK_BASE)
    && (forall j | l.ins <= j < l.top :: (pending && j == l.ins) || CurrentEntry(ix, l, j).value == Null)
  }

  /** A live block keeps its entry in every ring built since it was put in. */
  ghost predicate LiveAt(ix: Index, l: Ledger, j: nat)
    requires Rings(ix, l)
  {
    && l.lo <= j < l.ins <= |l.slots| && |l.born| == |l.slots|
    && l.born[j] < |ix.headers|
    && l.slots[j] < |ix.entries| && ix.entries[l.slots[j]].value.At?
    && forall h | l.born[j] <= h < |ix.headers| :: EntryOf(ix, l, h, j) == l.slots[j]
  }

  ghost predicate LivesOk(ix: Index, l: Ledger)
    requires Rings(ix, l)
  {
    forall j {:trigger LiveAt(ix, l, j)} | j in l.live :: LiveAt(ix, l, j)
  }

  /** Old rings end on an entry whose key is set. */
  ghost predicate OldTailsSet(ix: Index, l: Ledger)
    requires Rings(ix, l)
  {
    forall h | 0 <= h < Current(ix) :: TailKey(ix, l, h) != INVALID_BLOCK_BASE
  }

  ghost function TailKey(ix: Index, l: Ledger, h: nat): nat
    requires Rings(ix, l) && h < |ix.headers|
  {
    assert RingOk(ix, h);
    ix.entries[ix.headers[h].index[ix.headers[h].tail]].key
  }

  ghost predicate TailAt(ix: Index, l: Ledger, n: nat)
    requires Rings(ix, l)
  {
    Cong(ix.headers[Current(ix)].tail, l.origins[Current(ix)] + n - 1, CapacityAt(Current(ix)))
  }

  /** The whole invariant, with the tail after n insertions. */
  ghost predicate IndexOk(ix: Index, l: Ledger, n: nat, pending: bool) {
    && Rings(ix, l)
    && Aligned(ix, l)
    && KeysFit(ix, l)
    && Window(ix, l, pending)
    && LivesOk(ix, l)
    && OldTailsSet(ix, l)
    && TailAt(ix, l, n)
  }

  // ----- Slots -----

  /** Blocks less than a capacity apart have different slots. */
  lemma PosDistinct(l: Ledger, h: nat, i: nat, j: nat)
    requires h < |l.origins| && i != j && 0 - CapacityAt(h) < i - j < CapacityAt(h)
    ensures Pos(l, h, i) != Pos(l, h, j)
  {
    if Pos(l, h, i) == Pos(l, h, j) {
      CongUnique(l.origins[h] + i, l.origins[h] + j, CapacityAt(h));
    }
  }

  /** The slot after the tail is the slot of the next block. */
  lemma NextSlotIs(ix: Index, l: Ledger, n: nat)
    requires Rings(ix, l) && TailAt(ix, l, n)
    ensures IsHeader(ix, Current(ix)) && NextSlot(ix) == Pos(l, Current(ix), n)
  {
    var g := Current(ix);
    assert RingOk(ix, g);
    CongShift(ix.headers[g].tail, l.origins[g] + n - 1, 1, CapacityAt(g));
  }

  lemma NextPos(l: Ledger, h: nat, j: nat)
    requires h < |l.origins|
    ensures Res(Pos(l, h, j) + 1, CapacityAt(h)) == Pos(l, h, j + 1)
  {
    CongShift(Pos(l, h, j), l.origins[h] + j, 1, CapacityAt(h));
  }

  // ----- Lookups -----

  /** What a lookup computes from a ring h, a tail slot t of it and the key found there. */
  lemma LookupFindsPos(l: Ledger, h: nat, t: nat, key: nat, j: nat, n: int)
    requires h < |l.origins| && t < CapacityAt(h)
    requires key != INVALID_BLOCK_BASE && Fits(key, l.origins[h], t, CapacityAt(h))
    requires CapacityAt(h) * n * BLOCK_SIZE == WORD
    ensures LookupSlot(W(BLOCK_SIZE * j), W(key), t, CapacityAt(h)) == Pos(l, h, j)
  {
    var c, k := CapacityAt(h), key / BLOCK_SIZE;
    assert key == BLOCK_SIZE * k;
    LookupSlotOffset(j, k, t, c, n);
    CongShift(l.origins[h] + k, t, j - k, c);
  }

  // ----- Stores that leave the rings alone -----

  ghost predicate SameRings(ix: Index, ix': Index, l: Ledger, l': Ledger) {
    ix'.headers == ix.headers && |ix'.entries| == |ix.entries| && l'.origins == l.origins
  }

  lemma RingsKept(ix: Index, ix': Index, l: Ledger, l': Ledger)
    requires Rings(ix, l) && Aligned(ix, l) && SameRings(ix, ix', l, l')
    ensures Rings(ix', l') && Aligned(ix', l')
    ensures forall h, j: nat {:trigger EntryOf(ix', l', h, j)} | 0 <= h < |ix.headers| ::
            EntryOf(ix', l', h, j) == EntryOf(ix, l, h, j)
    ensures forall n {:trigger TailAt(ix', l', n)} :: TailAt(ix', l', n) == TailAt(ix, l, n)
  {
    forall h | 0 <= h < |ix'.headers| ensures RingOk(ix', h) { assert RingOk(ix, h); }
    forall h, q, p | 0 <= h < |ix.headers| && 0 <= q < CapacityAt(h) && 0 <= p < CapacityAt(Current(ix))
      ensures AlignedAt(ix', l', h, q, p)
    {
      assert AlignedAt(ix, l, h, q, p);
    }
  }

  /** The slots of the current ring are the entries of a window of blocks, each block's own. */
  lemma EntriesDistinct(ix: Index, l: Ledger, i: nat, j: nat)
    requires Rings(ix, l) && i != j && 0 - CapacityAt(Current(ix)) < i - j < CapacityAt(Current(ix))
    ensures EntryOf(ix, l, Current(ix), i) != EntryOf(ix, l, Current(ix), j)
  {
    PosDistinct(l, Current(ix), i, j);
    assert RingOk(ix, Current(ix));
  }

  ghost function Max(a: int, b: int): int { if a < b then b else a }

  /** The ledger once the key of block ins has been stored. */
  ghost function Keyed(ix: Index, l: Ledger): Ledger
    requires Rings(ix, l)
  {
    var top := Max(l.top, l.ins + 1);
    l.(top := top, lo := Max(l.lo, top - CapacityAt(Current(ix))))
  }

  /** The test insert_block_index_entry makes before it takes a slot. */
  predicate SlotFree(e: Entry) { e.key == INVALID_BLOCK_BASE || e.value == Null }

  lemma FreeSlotNotLive(ix: Index, l: Ledger, j: nat)
    requires IndexOk(ix, l, l.ins, false) && SlotFree(CurrentEntry(ix, l, l.ins)) && j in l.live
    ensures LiveAt(ix, l, j) && l.ins - CapacityAt(Current(ix)) < j
    ensures EntryOf(ix, l, Current(ix), j) != EntryOf(ix, l, Current(ix), l.ins)
  {
    assert LiveAt(ix, l, j);
    var g, c := Current(ix), CapacityAt(Current(ix));
    assert EntryOf(ix, l, g, j) == l.slots[j];
    var ej := CurrentEntry(ix, l, j);
    if j == l.ins - c {
      CongBy(l.origins[g] + l.ins, l.origins[g] + j, c, 1);
      assert false;
    }
    EntriesDistinct(ix, l, j, l.ins);
  }

  lemma StoreKeyKeys(ix: Index, l: Ledger)
    requires IndexOk(ix, l, l.ins, false) && SlotFree(CurrentEntry(ix, l, l.ins))
    ensures var e := EntryOf(ix, l, Current(ix), l.ins);
            var ix' := StoreKey(ix, e, BLOCK_SIZE * l.ins);
            Rings(ix', Keyed(ix, l)) && KeysFit(ix', Keyed(ix, l)) && OldTailsSet(ix', Keyed(ix, l))
  {
    var g, e := Current(ix), EntryOf(ix, l, Current(ix), l.ins);
    var ix', l' := StoreKey(ix, e, BLOCK_SIZE * l.ins), Keyed(ix, l);
    RingsKept(ix, ix', l, l');
    forall h, q | 0 <= h < |ix'.headers| && 0 <= q < CapacityAt(h) ensures KeyFits(ix', l', h, q) {
      assert KeyFits(ix, l, h, q) && RingOk(ix, h);
      if ix.headers[h].index[q] == e { NewKeyFits(ix, l, h, q); }
    }
    forall h | 0 <= h < g ensures TailKey(ix', l', h) != INVALID_BLOCK_BASE {
      assert TailKey(ix, l, h) != INVALID_BLOCK_BASE && RingOk(ix, h);
      assert BLOCK_SIZE * l.ins != INVALID_BLOCK_BASE;
    }
  }

  /** The new key also fits every old ring that shares the entry. */
  lemma NewKeyFits(ix: Index, l: Ledger, h: nat, q: nat)
    requires Rings(ix, l) && Aligned(ix, l) && h < |ix.headers| && q < CapacityAt(h) && RingOk(ix, h)
    requires ix.headers[h].index[q] == EntryOf(ix, l, Current(ix), l.ins)
    ensures Fits(BLOCK_SIZE * l.ins, l.origins[h], q, CapacityAt(h))
  {
    var g, p, c := Current(ix), Pos(l, Current(ix), l.ins), CapacityAt(h);
    assert AlignedAt(ix, l, h, q, p);
    CongOlder(p, l.origins[g] + l.ins, h, g);
    CongShift(p, l.origins[g] + l.ins, 0 - (l.origins[g] as int), c);
    CongShift(q - l.origins[h], l.ins, l.origins[h], c);
  }

  lemma StoreKeyWindow(ix: Index, l: Ledger)
    requires IndexOk(ix, l, l.ins, false) && SlotFree(CurrentEntry(ix, l, l.ins))
    ensures var e := EntryOf(ix, l, Current(ix), l.ins);
            var ix' := StoreKey(ix, e, BLOCK_SIZE * l.ins);
            Rings(ix', Keyed(ix, l)) && Window(ix', Keyed(ix, l), true)
  {
    hide Aligned;
    var g, e := Current(ix), EntryOf(ix, l, Current(ix), l.ins);
    var ix', l' := StoreKey(ix, e, BLOCK_SIZE * l.ins), Keyed(ix, l);
    RingsKept(ix, ix', l, l');
    forall j: nat | l'.lo <= j < l'.lo + CapacityAt(g) && j != l.ins
      ensures CurrentEntry(ix', l', j) == CurrentEntry(ix, l, j)
    {
      EntriesDistinct(ix, l, j, l.ins);
    }
  }

  lemma StoreKeyOk(ix: Index, l: Ledger)
    requires IndexOk(ix, l, l.ins, false) && SlotFree(CurrentEntry(ix, l, l.ins))
    ensures var e := EntryOf(ix, l, Current(ix), l.ins);
            IndexOk(StoreKey(ix, e, BLOCK_SIZE * l.ins), Keyed(ix, l), l.ins, true)
  {
    var g, e := Current(ix), EntryOf(ix, l, Current(ix), l.ins);
    var ix', l' := StoreKey(ix, e, BLOCK_SIZE * l.ins), Keyed(ix, l);
    RingsKept(ix, ix', l, l');
    StoreKeyKeys(ix, l);
    StoreKeyWindow(ix, l);
    forall j | j in l'.live ensures LiveAt(ix', l', j) {
      FreeSlotNotLive(ix, l, j);
    }
  }

  lemma StoreTailOk(ix: Index, l: Ledger, n: nat, n': nat, pending: bool, tail: nat)
    requires IndexOk(ix, l, n, pending) && tail < CapacityAt(Current(ix))
    requires Cong(tail, l.origins[Current(ix)] + n' - 1, CapacityAt(Current(ix)))
    ensures IndexOk(StoreTail(ix, tail), l, n', pending)
  {
    var ix' := StoreTail(ix, tail);
    forall h | 0 <= h < |ix'.headers| ensures RingOk(ix', h) { assert RingOk(ix, h); }
    assert Rings(ix', l);
    assert forall h, j: nat {:trigger EntryOf(ix', l, h, j)} | 0 <= h < |ix.headers| ::
           EntryOf(ix', l, h, j) == EntryOf(ix, l, h, j);
    forall h, q, p | 0 <= h < |ix.headers| && 0 <= q < CapacityAt(h) && 0 <= p < CapacityAt(Current(ix))
      ensures AlignedAt(ix', l, h, q, p)
    {
      assert AlignedAt(ix, l, h, q, p);
    }
    forall h, q | 0 <= h < |ix.headers| && 0 <= q < CapacityAt(h) ensures KeyFits(ix', l, h, q) {
      assert KeyFits(ix, l, h, q);
    }
    assert forall j: nat {:trigger CurrentEntry(ix', l, j)} :: CurrentEntry(ix', l, j) == CurrentEntry(ix, l, j);
    forall j | j in l.live ensures LiveAt(ix', l, j) { assert LiveAt(ix, l, j); }
    forall h | 0 <= h < Current(ix') ensures TailKey(ix', l, h) != INVALID_BLOCK_BASE {
      assert TailKey(ix, l, h) != INVALID_BLOCK_BASE && RingOk(ix, h);
    }
  }

  /** Advancing and rewinding the tail. */
  lemma AdvanceTailOk(ix: Index, l: Ledger, n: nat, pending: bool)
    requires IndexOk(ix, l, n, pending)
    ensures IsHeader(ix, Current(ix)) && IndexOk(StoreTail(ix, NextSlot(ix)), l, n + 1, pending)
  {
    NextSlotIs(ix, l, n);
    assert RingOk(ix, Current(ix));
    StoreTailOk(ix, l, n, n + 1, pending, NextSlot(ix));
  }

  lemma RewindTailOk(ix: Index, l: Ledger, n: nat, pending: bool)
    requires IndexOk(ix, l, n + 1, pending)
    ensures IsHeader(ix, Current(ix)) && IndexOk(StoreTail(ix, RewoundTail(ix)), l, n, pending)
  {
    var g := Current(ix);
    assert RingOk(ix, g);
    CongShift(ix.headers[g].tail, l.origins[g] + n, -1, CapacityAt(g));
    StoreTailOk(ix, l, n + 1, n, pending, RewoundTail(ix));
  }

  /** A store to one value: everything but the window's values and the live blocks carries over. */
  lemma StoreValueKeeps(ix: Index, l: Ledger, l': Ledger, n: nat, pending: bool, e: nat, v: Value)
    requires IndexOk(ix, l, n, pending) && e < |ix.entries|
    requires l'.origins == l.origins && l'.lo == l.lo && l'.top == l.top
    ensures var ix' := StoreValue(ix, e, v);
            Rings(ix', l') && Aligned(ix', l') && KeysFit(ix', l') && OldTailsSet(ix', l') && TailAt(ix', l', n)
            && (forall h, j: nat {:trigger EntryOf(ix', l', h, j)} | 0 <= h < |ix.headers| ::
               EntryOf(ix', l', h, j) == EntryOf(ix, l, h, j))
            && forall j: nat {:trigger CurrentEntry(ix', l', j)} :: CurrentEntry(ix', l', j) ==
                 if EntryOf(ix, l, Current(ix), j) == e then CurrentEntry(ix, l, j).(value := v) else CurrentEntry(ix, l, j)
  {
    var ix' := StoreValue(ix, e, v);
    RingsKept(ix, ix', l, l');
    forall h, q | 0 <= h < |ix.headers| && 0 <= q < CapacityAt(h) ensures KeyFits(ix', l', h, q) {
      assert KeyFits(ix, l, h, q) && RingOk(ix, h);
    }
    forall h | 0 <= h < Current(ix') ensures TailKey(ix', l', h) != INVALID_BLOCK_BASE {
      assert TailKey(ix, l, h) != INVALID_BLOCK_BASE && RingOk(ix, h);
    }
  }

  /** The ledger once block ins is in the index. */
  ghost function Placed(ix: Index, l: Ledger): Ledger
    requires Rings(ix, l) && |l.slots| == |l.born| == l.ins
  {
    l.(ins := l.ins + 1, slots := l.slots + [EntryOf(ix, l, Current(ix), l.ins)],
       born := l.born + [Current(ix)], live := l.live + {l.ins})
  }

  /** The value of the pending entry is stored: the block is in the index. */
  lemma PlaceOk(ix: Index, l: Ledger, b: Block)
    requires IndexOk(ix, l, l.ins + 1, true) && l.ins < l.top && |l.slots| == |l.born| == l.ins
    ensures IndexOk(StoreValue(ix, EntryOf(ix, l, Current(ix), l.ins), At(b)), Placed(ix, l), l.ins + 1, false)
  {
    var g, e, l' := Current(ix), EntryOf(ix, l, Current(ix), l.ins), Placed(ix, l);
    var ix' := StoreValue(ix, e, At(b));
    StoreValueKeeps(ix, l, l', l.ins + 1, true, e, At(b));
    forall j: nat | l.lo <= j < l.lo + CapacityAt(g) && j != l.ins
      ensures CurrentEntry(ix', l', j) == CurrentEntry(ix, l, j)
    {
      EntriesDistinct(ix, l, j, l.ins);
    }
    forall j | j in l'.live ensures LiveAt(ix', l', j) {
      if j != l.ins { assert LiveAt(ix, l, j); }
    }
  }

  /** Storing null in an entry that no live block uses. */
  lemma StoreNullOk(ix: Index, l: Ledger, n: nat, pending: bool, pending': bool, e: nat)
    requires IndexOk(ix, l, n, pending) && e < |ix.entries|
    requires forall j <- l.live :: j < |l.slots| ==> l.slots[j] != e
    requires pending && !pending' ==> e == EntryOf(ix, l, Current(ix), l.ins)
    ensures IndexOk(StoreValue(ix, e, Null), l, n, pending')
  {
    var ix' := StoreValue(ix, e, Null);
    StoreValueKeeps(ix, l, l, n, pending, e, Null);
    forall j | j in l.live ensures LiveAt(ix', l, j) { assert LiveAt(ix, l, j); }
  }

  /** The last dequeuer of block j clears its value. */
  lemma ClearOk(ix: Index, l: Ledger, n: nat, pending: bool, j: nat)
    requires IndexOk(ix, l, n, pending) && j in l.live
    ensures LiveAt(ix, l, j)
    ensures IndexOk(StoreValue(ix, l.slots[j], Null), l.(live := l.live - {j}), n, pending)
  {
    assert LiveAt(ix, l, j);
    var l' := l.(live := l.live - {j});
    forall i <- l'.live ensures i < |l.slots| ==> l.slots[i] != l.slots[j] { LivesDistinct(ix, l, i, j); }
    var ix' := StoreValue(ix, l.slots[j], Null);
    StoreValueKeeps(ix, l, l', n, pending, l.slots[j], Null);
    forall i | i in l'.live ensures LiveAt(ix', l', i) { assert LiveAt(ix, l, i); }
  }

  lemma LivesDistinct(ix: Index, l: Ledger, i: nat, j: nat)
    requires Rings(ix, l) && LivesOk(ix, l) && l.ins <= l.lo + CapacityAt(Current(ix))
    requires i in l.live && j in l.live && i != j
    ensures i < |l.slots| && j < |l.slots| && l.slots[i] != l.slots[j]
  {
    assert LiveAt(ix, l, i) && LiveAt(ix, l, j);
    assert EntryOf(ix, l, Current(ix), i) == l.slots[i] && EntryOf(ix, l, Current(ix), j) == l.slots[j];
    EntriesDistinct(ix, l, i, j);
  }

  // ----- Growing -----

  /** The ledger of the grown index: block ins - 1, whose slot was the tail, moves to slot c - 1. */
  ghost function Grown(ix: Index, l: Ledger): Ledger
    requires Rings(ix, l)
  {
    var c := CapacityAt(Current(ix));
    l.(origins := l.origins + [Res(c - l.ins, 2 * c)])
  }

  /** The test that makes insert_block_index_entry grow the index means the ring is exactly full. */
  lemma FullRing(ix: Index, l: Ledger)
    requires IndexOk(ix, l, l.ins, false) && !SlotFree(CurrentEntry(ix, l, l.ins))
    ensures Full(ix, l)
  {
    var e := CurrentEntry(ix, l, l.ins);
    assert RingOk(ix, Current(ix));
  }

  /** Where new_block_index finds and puts the entry of each block it copies. */
  lemma GrownSlots(ix: Index, l: Ledger, j: nat)
    requires IndexOk(ix, l, l.ins, false) && l.ins == l.top == l.lo + CapacityAt(Current(ix)) && l.lo <= j < l.ins
    requires RingOk(ix, Current(ix))
    ensures var c, g, l' := CapacityAt(Current(ix)), Current(ix), Grown(ix, l);
            && Pos(l', g + 1, j) == j - l.lo
            && Res(ix.headers[g].tail + 1 + (j - l.lo), c) == Pos(l, g, j)
            && Grow(ix).headers[g + 1].index[j - l.lo] == EntryOf(ix, l, g, j)
  {
    var g, c := Current(ix), CapacityAt(Current(ix));
    var t: int := ix.headers[g].tail;
    CongShift(Res(c - l.ins, 2 * c), c - l.ins, j, 2 * c);
    CongShift(t, l.origins[g] + l.ins - 1, 1 + (j - l.lo), c);
    CongBy(l.origins[g] + l.ins + (j - l.lo), l.origins[g] + j, c, 1);
  }

  ghost predicate Full(ix: Index, l: Ledger) {
    IndexOk(ix, l, l.ins, false) && l.ins == l.top == l.lo + CapacityAt(Current(ix)) && RingOk(ix, Current(ix))
  }

  lemma GrownSlot(ix: Index, l: Ledger, q: nat)
    requires Full(ix, l) && q < CapacityAt(Current(ix))
    ensures Grow(ix).headers[|ix.headers|].index[q] == EntryOf(ix, l, Current(ix), l.lo + q)
  {
    GrownSlots(ix, l, l.lo + q);
  }

  lemma GrowInjective(ix: Index, l: Ledger)
    requires Full(ix, l)
    ensures Injective(Grow(ix).headers[|ix.headers|].index)
  {
    var c, index := CapacityAt(Current(ix)), Grow(ix).headers[|ix.headers|].index;
    forall q, p | 0 <= q < p < |index| ensures index[q] != index[p] {
      if q < c { GrownSlot(ix, l, q); }
      if p < c {
        GrownSlot(ix, l, p);
        EntriesDistinct(ix, l, l.lo + q, l.lo + p);
      }
    }
  }

  lemma GrowInRange(ix: Index, l: Ledger)
    requires Full(ix, l)
    ensures forall q | 0 <= q < CapacityAt(|ix.headers|) :: Grow(ix).headers[|ix.headers|].index[q] < CapacityAt(|ix.headers|)
  {
    var c, index := CapacityAt(Current(ix)), Grow(ix).headers[|ix.headers|].index;
    forall q | 0 <= q < 2 * c ensures index[q] < 2 * c {
      if q < c { GrownSlot(ix, l, q); }
    }
  }

  lemma GrowRings(ix: Index, l: Ledger)
    requires Full(ix, l)
    ensures Rings(Grow(ix), Grown(ix, l))
  {
    var ix' := Grow(ix);
    GrowInjective(ix, l);
    GrowInRange(ix, l);
    forall h | 0 <= h < |ix'.headers| ensures RingOk(ix', h) {
      if h < |ix.headers| { assert RingOk(ix, h); CapacityDivides(h, Current(ix)); }
    }
  }

  /** Old rings keep their entries, and the new ring has the old one's for every block it knew. */
  lemma GrowEntry(ix: Index, l: Ledger, h: nat, j: nat)
    requires Full(ix, l) && h <= |ix.headers| && (h == |ix.headers| ==> l.lo <= j < l.ins)
    ensures Rings(Grow(ix), Grown(ix, l))
    ensures EntryOf(Grow(ix), Grown(ix, l), h, j) == EntryOf(ix, l, if h < |ix.headers| then h else Current(ix), j)
  {
    GrowRings(ix, l);
    if h < |ix.headers| { assert RingOk(ix, h); } else { GrownSlots(ix, l, j); }
  }

  lemma GrowWindow(ix: Index, l: Ledger)
    requires Full(ix, l)
    ensures Rings(Grow(ix), Grown(ix, l)) && Window(Grow(ix), Grown(ix, l), false)
  {
    GrowRings(ix, l);
    forall j: nat | l.lo <= j < l.ins ensures CurrentEntry(Grow(ix), Grown(ix, l), j) == CurrentEntry(ix, l, j) {
      GrowEntry(ix, l, |ix.headers|, j);
    }
    forall j: nat | l.ins <= j < l.ins + CapacityAt(Current(ix))
      ensures CurrentEntry(Grow(ix), Grown(ix, l), j).key == INVALID_BLOCK_BASE
    {
      GrowNewSlot(ix, l, j);
    }
  }

  lemma GrowNewSlot(ix: Index, l: Ledger, j: nat)
    requires Full(ix, l) && l.ins <= j < l.ins + CapacityAt(Current(ix))
    ensures Rings(Grow(ix), Grown(ix, l))
    ensures CurrentEntry(Grow(ix), Grown(ix, l), j).key == INVALID_BLOCK_BASE
  {
    var c := CapacityAt(Current(ix));
    GrowRings(ix, l);
    CongShift(Res(c - l.ins, 2 * c), c - l.ins, j, 2 * c);
    assert Pos(Grown(ix, l), |ix.headers|, j) == c + (j - l.ins);
  }

  lemma GrowAligned(ix: Index, l: Ledger, h: nat, q: nat, p: nat)
    requires Full(ix, l) && h < |ix.headers| && q < CapacityAt(h) && p < CapacityAt(Current(ix))
    requires RingOk(ix, h) && ix.headers[h].index[q] == EntryOf(ix, l, Current(ix), l.lo + p)
    ensures Cong(q - l.origins[h], p - Grown(ix, l).origins[|ix.headers|], CapacityAt(h))
  {
    var g, j, o, o' := Current(ix), l.lo + p, l.origins[Current(ix)], Grown(ix, l).origins[|ix.headers|];
    GrownSlots(ix, l, j);
    assert AlignedAt(ix, l, h, q, Pos(l, g, j));
    AlignThrough(q - l.origins[h], Pos(l, g, j), o, p, o', j, h, g);
  }

  lemma AlignThrough(x: int, p0: int, o: int, p: int, o': int, j: int, h: nat, g: nat)
    requires h <= g && Cong(x, p0 - o, CapacityAt(h))
    requires Cong(p0, o + j, CapacityAt(g)) && Cong(p, o' + j, CapacityAt(g + 1))
    ensures Cong(x, p - o', CapacityAt(h))
  {
    CongOlder(p0, o + j, h, g);
    CongShift(p0, o + j, 0 - o, CapacityAt(h));
    CongOlder(p, o' + j, h, g + 1);
    CongShift(p, o' + j, 0 - o', CapacityAt(h));
  }

  lemma GrowAlignedAt(ix: Index, l: Ledger, h: nat, q: nat, p: nat)
    requires Full(ix, l) && h <= |ix.headers| && q < CapacityAt(h) && p < CapacityAt(|ix.headers|)
    ensures Rings(Grow(ix), Grown(ix, l)) && AlignedAt(Grow(ix), Grown(ix, l), h, q, p)
  {
    GrowRings(ix, l);
    if h < |ix.headers| {
      assert RingOk(ix, h);
      if p < CapacityAt(Current(ix)) {
        GrownSlot(ix, l, p);
        if ix.headers[h].index[q] == EntryOf(ix, l, Current(ix), l.lo + p) { GrowAligned(ix, l, h, q, p); }
      }
    }
  }

  lemma GrowKeyFits(ix: Index, l: Ledger, h: nat, q: nat)
    requires Full(ix, l) && h <= |ix.headers| && q < CapacityAt(h)
    ensures Rings(Grow(ix), Grown(ix, l)) && KeyFits(Grow(ix), Grown(ix, l), h, q)
  {
    hide LivesOk, TailAt;
    GrowRings(ix, l);
    if h < |ix.headers| {
      assert KeyFits(ix, l, h, q) && RingOk(ix, h);
    } else if q < CapacityAt(Current(ix)) {
      GrownSlots(ix, l, l.lo + q);
      assert CurrentEntry(ix, l, l.lo + q).key == BLOCK_SIZE * (l.lo + q);
    }
  }

  lemma GrowTails(ix: Index, l: Ledger)
    requires Full(ix, l)
    ensures Rings(Grow(ix), Grown(ix, l))
    ensures OldTailsSet(Grow(ix), Grown(ix, l)) && TailAt(Grow(ix), Grown(ix, l), l.ins)
  {
    hide Aligned;
    GrowRings(ix, l);
    var g, c := Current(ix), CapacityAt(Current(ix));
    forall h | 0 <= h <= g ensures TailKey(Grow(ix), Grown(ix, l), h) != INVALID_BLOCK_BASE {
      assert RingOk(ix, h);
      if h < g {
        assert TailKey(ix, l, h) != INVALID_BLOCK_BASE;
      } else {
        assert CurrentEntry(ix, l, l.ins - 1).key == BLOCK_SIZE * (l.ins - 1);
      }
    }
    CongShift(Res(c - l.ins, 2 * c), c - l.ins, l.ins - 1, 2 * c);
  }

  lemma GrowLives(ix: Index, l: Ledger)
    requires Full(ix, l)
    ensures Rings(Grow(ix), Grown(ix, l)) && LivesOk(Grow(ix), Grown(ix, l))
  {
    GrowRings(ix, l);
    forall j | j in l.live ensures LiveAt(Grow(ix), Grown(ix, l), j) {
      assert LiveAt(ix, l, j);
      forall h | l.born[j] <= h <= |ix.headers| ensures EntryOf(Grow(ix), Grown(ix, l), h, j) == l.slots[j] {
        GrowEntry(ix, l, h, j);
        assert EntryOf(ix, l, Current(ix), j) == l.slots[j];
      }
    }
  }

  /** Growing keeps everything; the block that was refused a slot now has a fresh one. */
  lemma GrowOk(ix: Index, l: Ledger)
    requires Full(ix, l)
    ensures IndexOk(Grow(ix), Grown(ix, l), l.ins, false)
    ensures CurrentEntry(Grow(ix), Grown(ix, l), l.ins).key == INVALID_BLOCK_BASE
  {
    var ix', l' := Grow(ix), Grown(ix, l);
    GrowWindow(ix, l);
    GrowTails(ix, l);
    GrowLives(ix, l);
    forall h, q, p | 0 <= h < |ix'.headers| && 0 <= q < CapacityAt(h) && 0 <= p < CapacityAt(Current(ix'))
      ensures AlignedAt(ix', l', h, q, p)
    {
      GrowAlignedAt(ix, l, h, q, p);
    }
    forall h, q | 0 <= h < |ix'.headers| && 0 <= q < CapacityAt(h) ensures KeyFits(ix', l', h, q) {
      GrowKeyFits(ix, l, h, q);
    }
  }

  lemma InitialOk()
    ensures IndexOk(Initial(), Ledger([0], 0, 0, 0, [], [], {}), 0, false)
  {
    var ix, l := Initial(), Ledger([0], 0, 0, 0, [], [], {});
    assert RingOk(ix, 0);
    forall q, p | 0 <= q < CapacityAt(0) && 0 <= p < CapacityAt(0) ensures AlignedAt(ix, l, 0, q, p) {}
    CongBy(IMPLICIT_INITIAL_INDEX_SIZE - 1, -1, IMPLICIT_INITIAL_INDEX_SIZE, 1);
  }
}
