module ImplicitProducers {
  /* One implicit producer (src/concurrentqueue.h) as the class it is, used by one thread at a time:
     a FIFO queue over recycled blocks and a growing block index. */

  import opened CircularArithmetic
  import opened BlockIndex
  import opened BlockIndexInvariant
  import opened Blocks
  import opened Options
  import opened SequentialView

  /** The comparison of the code is the integer one as long as the queue holds fewer than 2^63 slots. */
  lemma LessIsLess(x: nat, y: nat)
    requires -HALF < x - y < HALF
    ensures CircularLess(W(x), W(y)) <==> x < y
  {
    CircularLessWindow(x, y);
  }

  /** The fullness test of an enqueue keeps it that way. */
  lemma FullnessTest(head: nat, end: nat)
    requires head <= end < head + WORD
    ensures CircularLess(W(head), W(end)) <==> head < end < head + HALF
  {
    MinusIsDifference(head, end);
    if head < end { WNegative(head - end); } else { WSmall(0); }
  }

  /** The test of a dequeue on a quiescent queue: is there anything left? */
  lemma DequeueTest(v: View, opt: nat, over: nat, tail: nat)
    requires Good(v) && opt == v.head + over && tail == |v.sent|
    ensures CircularLess(Minus(W(opt), W(over)), W(tail)) <==> v.head < tail
  {
    MinusIsDifference(opt, over);
    LessIsLess(v.head, tail);
  }

  /** In the bulk form the difference itself is used. */
  lemma BulkTest(v: View, opt: nat, over: nat, tail: nat)
    requires Good(v) && opt == v.head + over && tail == |v.sent|
    ensures Minus(W(tail), Minus(W(opt), W(over))) == tail - v.head
    ensures CircularLess(0, Minus(W(tail), Minus(W(opt), W(over)))) <==> v.head < tail
  {
    MinusIsDifference(opt, over);
    MinusIsDifference(tail, v.head);
    WSmall(tail - v.head);
    WSmall(0);
    LessIsLess(0, tail - v.head);
  }

  /** size_approx, on indices that are not changing. */
  lemma SizeTest(v: View, head: nat, tail: nat)
    requires Good(v) && head == v.head && tail == |v.sent|
    ensures (if CircularLess(W(head), W(tail)) then Minus(W(tail), W(head)) else 0) == tail - head
  {
    MinusIsDifference(tail, head);
    WSmall(tail - head);
    LessIsLess(head, tail);
  }

  /** A round ends with the block or with the claim. */
  lemma EndOfRound(v: View, end: nat)
    requires Good(v) && v.head < end <= |v.sent|
    ensures var stop := Base(v.head) + BLOCK_SIZE;
            && (CircularLess(W(end), W(stop)) <==> end < stop)
            && v.head < stop && BlockOf(stop) == BlockOf(v.head) + 1
            && (end < stop ==> Run(v, end - v.head)) && (stop <= end ==> Run(v, stop - v.head))
  {
    LessIsLess(end, Base(v.head) + BLOCK_SIZE);
  }

  /** base of the block of an index; start - 1 may be -1, for which the code's word wraps. */
  function Base(i: int): int { i / BLOCK_SIZE * BLOCK_SIZE }

  class ImplicitProducer {
    const parent: BlockPool
    var tailIndex: nat
    var headIndex: nat
    var dequeueOptimisticCount: nat
    var dequeueOvercommit: nat
    var tailBlock: Option<Block>
    var blockIndex: Index
    ghost var ledger: Ledger
    ghost var homes: seq<Block>
    ghost var sent: seq<Item>
    ghost var moved: nat           // elements moved out so far; behind headIndex during a bulk dequeue

    ghost function View(): View
      reads this, parent
    {
      SequentialView.View(moved, blockIndex, ledger, homes, sent,
                          parent.blocks, parent.initialBlockPoolSize, parent.initialBlockPoolIndex, parent.freeList)
    }

    ghost predicate Valid()
      reads this, parent
    {
      && Good(View()) && Settled(View())
      && tailIndex == |sent| && headIndex == moved
      && dequeueOptimisticCount == headIndex + dequeueOvercommit
      && (|homes| > 0 ==> tailBlock == Some(homes[|homes| - 1]))
    }

    /** What the queue holds, oldest first. */
    ghost function Contents(): seq<Item>
      reads this
      requires headIndex <= |sent|
    {
      sent[headIndex..]
    }

    constructor (pool: BlockPool)
      requires pool.Valid()
      ensures Valid() && parent == pool && headIndex == 0 && Contents() == sent == [] && homes == []
      ensures blockIndex == Initial()
    {
      parent := pool;
      tailIndex, headIndex, dequeueOptimisticCount, dequeueOvercommit, tailBlock := 0, 0, 0, 0, None;
      blockIndex := Initial();
      ledger := Ledger([0], 0, 0, 0, [], [], {});
      homes, sent, moved := [], [], 0;
      InitialOk();
    }

    // ----- The block index -----

    /** Copies the ring, oldest entry first, and adds as many new entries. */
    method CopyRing(prev: Header, firstNew: nat) returns (copied: seq<nat>)
      requires |prev.index| == prev.capacity && prev.tail < prev.capacity
      ensures copied == Unrolled(prev, firstNew)
    {
      var c, prevTail := prev.capacity, prev.tail;
      var index: array<nat> := new nat[2 * c];
      var prevPos, i := prevTail, 0;
      ResSmall(prevTail, c);
      while true
        invariant 0 <= i < c && prevPos == Res(prevTail + i, c)
        invariant forall k | 0 <= k < i :: index[k] == prev.index[Res(prevTail + 1 + k, c)]
        decreases c - i
      {
        ResStep(prevTail, i, c);
        prevPos := Res(prevPos + 1, c);
        index[i] := prev.index[prevPos];
        i := i + 1;
        if prevPos == prevTail { break; }
      }
      assert i == c;
      var n := 0;
      while n < c
        invariant 0 <= n <= c
        invariant forall k | 0 <= k < c :: index[k] == prev.index[Res(prevTail + 1 + k, c)]
        invariant forall k | c <= k < c + n :: index[k] == firstNew + (k - c)
      {
        index[c + n] := firstNew + n;
        n := n + 1;
      }
      copied := index[..];
    }

    method NewBlockIndex() returns (ok: bool)
      requires HeaderThere(blockIndex)
      requires blockIndex.headers[Current(blockIndex)].tail < blockIndex.headers[Current(blockIndex)].capacity
      modifies this`blockIndex, parent`refusals
      ensures blockIndex == if ok then Grow(old(blockIndex)) else old(blockIndex)
      ensures ok ==> old(Current(blockIndex)) < LAST_HEADER
      ensures parent.refusals == old(parent.refusals) + if ok then 0 else 1
    {
      var raw := parent.Malloc(Current(blockIndex) < LAST_HEADER);
      if raw.None? { return false; }
      var prev := blockIndex.headers[Current(blockIndex)];
      var index := CopyRing(prev, |blockIndex.entries|);
      blockIndex := Index(blockIndex.headers + [Header(2 * prev.capacity, prev.capacity - 1, index)],
                          blockIndex.entries + seq(prev.capacity, _ => Entry(INVALID_BLOCK_BASE, Garbage)));
      assert blockIndex.entries == Grow(old(blockIndex)).entries;
      ok := true;
    }

    /** Makes room for one more block in a full ring. */
    method GrowFull() returns (ok: bool, newTail: nat)
      requires IndexGood(View()) && Full(blockIndex, ledger)
      modifies this`blockIndex, this`ledger, parent`refusals
      ensures parent.refusals == old(parent.refusals) + if ok then 0 else 1
      ensures !ok ==> blockIndex == old(blockIndex) && ledger == old(ledger)
      ensures ok ==> IndexOk(blockIndex, ledger, |homes|, false) && Current(blockIndex) <= LAST_HEADER
      ensures ok ==> CurrentEntry(blockIndex, ledger, |homes|).key == INVALID_BLOCK_BASE
      ensures ok ==> ledger == old(ledger).(origins := ledger.origins) && |old(blockIndex).entries| <= |blockIndex.entries|
      ensures ok ==> forall e | 0 <= e < |old(blockIndex).entries| :: blockIndex.entries[e] == old(blockIndex).entries[e]
      ensures ok ==> HeaderThere(blockIndex) && newTail == NextSlot(blockIndex) < blockIndex.headers[Current(blockIndex)].capacity
      ensures ok ==> Slot(blockIndex, Current(blockIndex), newTail) == EntryOf(blockIndex, ledger, Current(blockIndex), |homes|)
    {
      GrowOk(blockIndex, ledger);
      ok := NewBlockIndex();
      newTail := 0;
      if ok {
        ledger := Grown(old(blockIndex), ledger);
        TailSlot(blockIndex, ledger);
        newTail := NextSlot(blockIndex);
      }
    }

    /** Takes the slot after the tail for the block with the base, growing the ring if it is full. */
    method InsertBlockIndexEntry(base: nat, canAlloc: bool) returns (ok: bool, e: nat)
      requires IndexGood(View()) && base == BLOCK_SIZE * |homes|
      modifies this`blockIndex, this`ledger, parent`refusals
      ensures old(HeaderThere(blockIndex))
      ensures parent.refusals == old(parent.refusals) || (parent.refusals == old(parent.refusals) + 1 && canAlloc)
      ensures ok <==> parent.refusals == old(parent.refusals) && (canAlloc || old(FreeAfter(blockIndex, 0)))
      ensures old(FreeAfter(blockIndex, 0)) ==>
                parent.refusals == old(parent.refusals) && ledger.origins == old(ledger.origins)
                && Rings(old(blockIndex), old(ledger))
                && e == EntryOf(old(blockIndex), old(ledger), old(Current(blockIndex)), |homes|)
                && blockIndex == StoreTail(StoreKey(old(blockIndex), e, base), old(NextSlot(blockIndex)))
      ensures ok ==> InsertsKey(old(View()), blockIndex, ledger) && Rings(blockIndex, ledger)
                     && e == EntryOf(blockIndex, ledger, Current(blockIndex), ledger.ins)
      ensures !ok ==> blockIndex == old(blockIndex) && ledger == old(ledger)
    {
      hide Good, Rings, IndexOk, Full, EntryOf, FreeAfter;
      TailSlot(blockIndex, ledger);
      var newTail := NextSlot(blockIndex);
      e := Slot(blockIndex, Current(blockIndex), newTail);
      if !(blockIndex.entries[e].key == INVALID_BLOCK_BASE || blockIndex.entries[e].value == Null) {
        FullRing(blockIndex, ledger);
        if !canAlloc { return false, e; }
        ok, newTail := GrowFull();
        if !ok { return false, e; }
        e := Slot(blockIndex, Current(blockIndex), newTail);
      }
      InsertAtTail(blockIndex, ledger);
      ledger, blockIndex := Keyed(blockIndex, ledger), StoreTail(StoreKey(blockIndex, e, base), newTail);
      ok := true;
    }

    method RewindBlockIndexTail()
      requires HeaderThere(blockIndex)
      modifies this`blockIndex
      ensures blockIndex == StoreTail(old(blockIndex), RewoundTail(old(blockIndex)))
    {
      blockIndex := StoreTail(blockIndex, RewoundTail(blockIndex));
    }

    /** get_block_index_index_for_index: the slot of the block of the index.  The first assert needs
        the block before the tail to be in the window, the second the block to be live. */
    method GetBlockIndexIndexForIndex(index: nat, ghost l: Ledger, ghost n: nat) returns (slot: nat)
      requires IndexOk(blockIndex, l, n, false) && l.lo < n <= l.top && Current(blockIndex) <= LAST_HEADER
      ensures slot == Pos(l, Current(blockIndex), BlockOf(index))
      ensures IsHeader(blockIndex, Current(blockIndex)) && slot < blockIndex.headers[Current(blockIndex)].capacity
      ensures BlockOf(index) in l.live ==>
                var entry := blockIndex.entries[Slot(blockIndex, Current(blockIndex), slot)];
                entry.key == BLOCK_SIZE * BlockOf(index) && entry.value.At?
    {
      LookupCurrent(blockIndex, l, n, false, BlockOf(index));
      if BlockOf(index) in l.live { LiveEntry(blockIndex, l, n, false, BlockOf(index)); }
      var header := blockIndex.headers[Current(blockIndex)];
      var tailBase := blockIndex.entries[header.index[header.tail]].key;
      assert tailBase != INVALID_BLOCK_BASE;
      slot := LookupSlot(W(BLOCK_SIZE * BlockOf(index)), W(tailBase), header.tail, header.capacity);
    }

    method GetBlockIndexEntryForIndex(index: nat, ghost l: Ledger, ghost n: nat) returns (e: nat)
      requires IndexOk(blockIndex, l, n, false) && l.lo < n <= l.top && Current(blockIndex) <= LAST_HEADER
      ensures e == EntryOf(blockIndex, l, Current(blockIndex), BlockOf(index))
    {
      var slot := GetBlockIndexIndexForIndex(index, l, n);
      assert RingOk(blockIndex, Current(blockIndex));
      e := Slot(blockIndex, Current(blockIndex), slot);
    }

    // ----- One element -----

    /** No block for the key just inserted: the tail goes back and the entry is cleared. */
    method GiveUpKey(e: nat)
      requires Keyed1(View()) && parent.Valid() && BLOCK_SIZE * |homes| - moved < HALF
      requires e == EntryOf(blockIndex, ledger, Current(blockIndex), ledger.ins)
      modifies this`blockIndex
      ensures Good(View())
    {
      UndoKey(View());
      RewindBlockIndexTail();
      blockIndex := StoreValue(blockIndex, e, Null);
    }

    /** The new block goes into the entry of the key just inserted. */
    method FillEntry(e: nat, b: Block)
      requires Keyed1(View()) && parent.Valid() && BLOCK_SIZE * |homes| + BLOCK_SIZE - moved < HALF
      requires e == EntryOf(blockIndex, ledger, Current(blockIndex), ledger.ins)
      requires b in parent.blocks && !Unused(b, parent.initialBlockPoolSize, parent.initialBlockPoolIndex, parent.freeList)
      requires forall j: nat {:trigger homes[j]} | Needed(View(), j) :: homes[j] != b
      modifies this`blockIndex, this`ledger, this`homes, parent`blocks
      ensures Good(View()) && homes == old(homes) + [b]
      ensures ledger.live == old(ledger.live) + {|old(homes)|} && ledger.slots == old(ledger.slots) + [e]
      ensures parent.blocks == old(parent.blocks)[b := old(parent.blocks[b]).(done := 0)]
      ensures blockIndex == StoreValue(old(blockIndex), e, At(b)) && ledger.origins == old(ledger.origins)
    {
      ghost var v := View();
      parent.blocks := parent.blocks[b := parent.blocks[b].(done := 0)];
      AddBlock(v, b, parent.blocks);
      blockIndex := StoreValue(blockIndex, e, At(b));
      ledger, homes := Placed(v.index, ledger), homes + [b];
    }

    /** The block for the key just inserted, or the key given up. */
    method BlockForKey(e: nat, canAlloc: bool) returns (b: Option<Block>)
      requires Keyed1(View()) && parent.Valid() && BLOCK_SIZE * |homes| + BLOCK_SIZE - moved < HALF
      requires e == EntryOf(blockIndex, ledger, Current(blockIndex), ledger.ins)
      modifies this`blockIndex, this`ledger, this`homes, parent
      ensures Good(View())
      ensures b.None? ==> homes == old(homes) && Untouched(old(View()), View())
      ensures b.Some? ==> homes == old(homes) + [b.value] && TakesBlock(old(View()), View(), b.value)
      ensures b.Some? ==> ledger.live == old(ledger.live) + {|old(homes)|} && ledger.slots == old(ledger.slots) + [e]
      ensures b.Some? ==> ledger.origins == old(ledger.origins) && blockIndex == StoreValue(old(blockIndex), e, At(b.value))
      ensures var spare := Spare(parent.initialBlockPoolSize, old(parent.initialBlockPoolIndex), old(parent.freeList));
              && parent.refusals >= old(parent.refusals) && (spare > 0 || !canAlloc ==> parent.refusals == old(parent.refusals))
              && (b.Some? <==> parent.refusals == old(parent.refusals) && (canAlloc || spare > 0))
              && (spare > 0 ==> spare - 1 == Spare(parent.initialBlockPoolSize, parent.initialBlockPoolIndex, parent.freeList))
    {
      ghost var v1 := View();
      assert AllHeld(v1);
      hide IndexOk, AllHeld, IndexGood, PoolGood, Apart, Unused, Keyed1, Spare, EntryOf;
      b := parent.RequisitionBlock(canAlloc);
      if b.None? {
        GiveUpKey(e);
        return None;
      }
      OtherPool(v1, View());
      NotUnused(v1);
      FillEntry(e, b.value);
    }

    /** The next block: its place in the index is taken first, and given up if there is no block. */
    method NewBlock(base: nat, canAlloc: bool) returns (b: Option<Block>)
      requires Good(View()) && base == BLOCK_SIZE * |homes| && headIndex == moved
      modifies this`blockIndex, this`ledger, this`homes, parent
      ensures Good(View())
      ensures b.None? ==> homes == old(homes) && Untouched(old(View()), View())
      ensures b.Some? ==> homes == old(homes) + [b.value] && TakesBlock(old(View()), View(), b.value)
      ensures b.Some? ==> ledger.live == old(ledger.live) + {|old(homes)|} && |ledger.slots| == |homes|
                          && ledger.slots[..|old(homes)|] == old(ledger.slots)
      ensures Obtains(old(View()), View(), b.Some?, parent.refusals - old(parent.refusals), canAlloc)
    {
      ghost var v := View();
      HoldsOne(v);
      FullnessTest(headIndex, base + BLOCK_SIZE);
      assert IndexGood(v) && parent.Valid() && v.head <= BLOCK_SIZE * |homes|
             && (RoomFor(v, 1) <==> base + BLOCK_SIZE - moved < HALF);
      hide Good, IndexOk, IndexGood, PoolGood, Unused, Keyed1, FreeAfter, CanHold, Spare, NextSlot, EntryOf, CircularLess,
           Untouched, TakesBlock, Obtains, RoomFor;
      UntouchedSelf(v);
      if !CircularLess(W(headIndex), W(base + BLOCK_SIZE)) {
        ObtainsIf(v, v, false, false, 0, canAlloc);
        return None;
      }
      var inserted, e := InsertBlockIndexEntry(base, canAlloc);
      if !inserted {
        ObtainsIf(v, v, false, false, parent.refusals - old(parent.refusals), canAlloc);
        return None;
      }
      InsertKey(v, blockIndex, ledger);
      ghost var v1 := View();
      b := BlockForKey(e, canAlloc);
      SinceKey(v, v1.index, v1.ledger, View(), b);
      if b.Some? && CanHold(v, 1) { HoldsLess(v, View(), b.value, e); }
      ObtainsIf(v, View(), b.Some?, true, parent.refusals - old(parent.refusals), canAlloc);
    }

    /** Constructs the next element in the tail block. */
    method Construct(index: nat, x: Item)
      requires Good(View()) && index == |sent| < BLOCK_SIZE * |homes| && tailBlock == Some(homes[BlockOf(index)])
      modifies this`sent, parent`blocks
      ensures Good(View()) && sent == old(sent) + [x] && tailBlock.value in old(parent.blocks)
      ensures forall c <- old(parent.blocks) :: c in parent.blocks && (c != tailBlock.value ==>
              parent.blocks[c] == old(parent.blocks[c]))
      ensures SameLinks(old(parent.blocks), parent.blocks) && LeavesOthers(old(View()), View())
    {
      hide Good, LeavesOthers;
      WriteElement(View(), x);
      MineByHome(View(), BlockOf(index));
      ghost var v := View();
      var storage := parent.blocks[tailBlock.value];
      parent.blocks := parent.blocks[tailBlock.value := storage.(elements := storage.elements[index % BLOCK_SIZE := Some(x)])];
      sent := sent + [x];
      OwnBlockLeaves(v, View(), tailBlock.value);
    }

    /** The tail has reached the end of a block: the next one becomes the tail block. */
    method NextTailBlock(canAlloc: bool) returns (ok: bool)
      requires Valid() && tailIndex % BLOCK_SIZE == 0
      modifies this`blockIndex, this`ledger, this`homes, this`tailBlock, parent
      ensures Good(View()) && LeavesOthers(old(View()), View())
      ensures !ok ==> homes == old(homes) && tailBlock == old(tailBlock) && Untouched(old(View()), View())
      ensures ok ==> |homes| == |old(homes)| + 1 && tailBlock == Some(homes[|old(homes)|]) && InLastBlock(tailIndex, |homes|)
      ensures Obtains(old(View()), View(), ok, parent.refusals - old(parent.refusals), canAlloc)
      ensures ok ==> forall c <- old(parent.blocks) | c != tailBlock.value ::
               c in parent.blocks && parent.blocks[c] == old(parent.blocks[c])
    {
      ghost var v := View();
      SettledBlocks(v);
      hide Good, LeavesOthers, Obtains;
      var b := NewBlock(tailIndex, canAlloc);
      if b.None? {
        UntouchedLeaves(v, View());
        return false;
      }
      TakesLeaves(v, View(), b.value);
      tailBlock := b;
      ok := true;
    }

    /** There is room in the tail block: the element is constructed there and published. */
    method Append(x: Item)
      requires Good(View()) && InLastBlock(tailIndex, |homes|) && tailBlock == Some(homes[|homes| - 1])
      requires tailIndex == |sent| && headIndex == moved && dequeueOptimisticCount == headIndex + dequeueOvercommit
      modifies this`sent, this`tailIndex, parent`blocks
      ensures Valid() && sent == old(sent) + [x] && LeavesOthers(old(View()), View()) && Mine(View(), tailBlock.value)
      ensures forall c <- old(parent.blocks) | c != tailBlock.value ::
               c in parent.blocks && parent.blocks[c] == old(parent.blocks[c])
    {
      hide Good, LeavesOthers, Mine, SameLinks;
      SentBounds(View());
      LastBlockIsMine(View(), tailIndex);
      Construct(tailIndex, x);
      LastBlockIsMine(View(), tailIndex);
      tailIndex := tailIndex + 1;
    }

    /** Makes sure that there is room in the tail block. */
    method RoomInTail(canAlloc: bool) returns (ok: bool)
      requires Valid()
      modifies this`blockIndex, this`ledger, this`homes, this`tailBlock, parent
      ensures Good(View()) && LeavesOthers(old(View()), View())
      ensures !ok ==> homes == old(homes) && tailBlock == old(tailBlock) && Untouched(old(View()), View())
      ensures !ok ==> old(tailIndex) % BLOCK_SIZE == 0
      ensures ok ==> |homes| > 0 && tailBlock == Some(homes[|homes| - 1]) && InLastBlock(tailIndex, |homes|)
      ensures ok ==> forall c <- old(parent.blocks) | c != tailBlock.value ::
               c in parent.blocks && parent.blocks[c] == old(parent.blocks[c])
      ensures var refused := parent.refusals - old(parent.refusals);
              if tailIndex % BLOCK_SIZE == 0 then Obtains(old(View()), View(), ok, refused, canAlloc)
              else View() == old(View()) && refused == 0
    {
      hide Good, LeavesOthers, Untouched, Obtains;
      if tailIndex % BLOCK_SIZE == 0 {
        ok := NextTailBlock(canAlloc);
      } else {
        LeavesSelf(View());
        PartlyFilled(View());
        ok := true;
      }
    }

    method Enqueue(x: Item, canAlloc: bool) returns (ok: bool)
      requires Valid()
      modifies this, parent
      ensures Valid() && headIndex == old(headIndex) && LeavesOthers(old(View()), View())
      ensures sent == if ok then old(sent) + [x] else old(sent)
      ensures Contents() == if ok then old(Contents()) + [x] else old(Contents())
      ensures !ok ==> tailIndex == old(tailIndex) && tailBlock == old(tailBlock) && Untouched(old(View()), View())
      ensures ok ==> tailBlock.Some? && Mine(View(), tailBlock.value)
                     && forall c <- old(parent.blocks) | c != tailBlock.value ::
                              c in parent.blocks && parent.blocks[c] == old(parent.blocks[c])
      ensures ok <==> old(tailIndex) % BLOCK_SIZE != 0 ||
                      (old(tailIndex + BLOCK_SIZE - headIndex) < HALF && parent.refusals == old(parent.refusals)
                       && (canAlloc || old(CanHold(View(), 1))))
      ensures Stores(old(View()), View(), ok, parent.refusals - old(parent.refusals), canAlloc)
    {
      ghost var v := View();
      SentBounds(v);
      hide Good, Settled, LeavesOthers, Untouched, Mine, Obtains, CanHold, Stores;
      ok := RoomInTail(canAlloc);
      ghost var v1 := View();
      if ok {
        Append(x);
        LeavesThrough(v, v1, View());
        StoresThrough(v, v1, View(), parent.refusals - old(parent.refusals), canAlloc);
      } else {
        RefusedStores(v, v1, parent.refusals - old(parent.refusals), canAlloc);
      }
      StoresWhen(v, View(), ok, parent.refusals - old(parent.refusals), canAlloc);
    }

    /** Moves the elements index .. index + count out of the block's memory. */
    method MoveElements(b: Block, index: nat, count: nat) returns (items: seq<Item>, after: Storage)
      requires Good(View()) && index == moved && Run(View(), count)
      requires Needed(View(), BlockOf(index)) && Held(View(), BlockOf(index)) && b == homes[BlockOf(index)]
      ensures items == sent[index..index + count]
      ensures Drains(View(), count, parent.blocks[b], after.(done := parent.blocks[b].done + count))
              && after.done == parent.blocks[b].done
      ensures after.next == parent.blocks[b].next
    {
      after := parent.blocks[b];
      var k := 0;
      items := [];
      while k < count
        invariant 0 <= k <= count && |after.elements| == BLOCK_SIZE && |items| == k
        invariant after == parent.blocks[b].(elements := after.elements)
        invariant forall i | 0 <= i < k :: items[i] == sent[index + i]
        invariant forall i | index % BLOCK_SIZE + k <= i < BLOCK_SIZE :: after.elements[i] == parent.blocks[b].elements[i]
      {
        HeadElements(View(), index + k);
        SlotInBlock(index, k);
        items := items + [after.elements[(index + k) % BLOCK_SIZE].value];
        after := after.(elements := after.elements[(index + k) % BLOCK_SIZE := None]);
        k := k + 1;
      }
    }

    /** Moves count elements out of the block and counts them (set_empty, set_many_empty); whoever
        counts the last one clears the index entry and frees the block. */
    method TakeOut(b: Block, e: nat, index: nat, count: nat) returns (items: seq<Item>)
      requires Good(View()) && index == moved && Run(View(), count) && BlockOf(index) < |homes|
      requires b == homes[BlockOf(index)] && BlockOf(index) < |ledger.slots| && e == ledger.slots[BlockOf(index)]
      modifies this`moved, this`blockIndex, this`ledger, parent`blocks, parent`freeList
      ensures Good(View()) && moved == index + count
      ensures items == sent[index..index + count]
      ensures parent.freeList == if (index + count) % BLOCK_SIZE == 0 then [b] + old(parent.freeList) else old(parent.freeList)
      ensures b in old(parent.blocks) && OnlyBlock(old(parent.blocks), parent.blocks, b)
      ensures blockIndex.headers == old(blockIndex.headers) && ledger == old(ledger).(live := ledger.live)
      ensures LeavesOthers(old(View()), View())
    {
      hide IndexOk, Apart, LeavesOthers;
      ghost var v := View();
      HeadBlock(v);
      MineByHome(v, BlockOf(index));
      var after;
      items, after := MoveElements(b, index, count);
      after := after.(done := after.done + count);
      parent.blocks := parent.blocks[b := after];
      moved := index + count;
      if (index + count) % BLOCK_SIZE == 0 { TakeLast(v, count, after); } else { TakeSome(v, count, after); }
      if after.done == BLOCK_SIZE {
        blockIndex := StoreValue(blockIndex, e, Null);
        ledger := ledger.(live := ledger.live - {BlockOf(index)});
        parent.AddBlockToFreeList(b);
      }
      OwnBlockLeaves(v, View(), b);
    }

    /** The index entry, and through it the block, of an element that is still there. */
    method FindBlock(index: nat) returns (e: nat, b: Block)
      requires Good(View()) && moved <= index < |sent|
      ensures Needed(View(), BlockOf(index)) && b == homes[BlockOf(index)]
      ensures BlockOf(index) < |ledger.slots| && e == ledger.slots[BlockOf(index)]
    {
      NeededInWindow(View(), BlockOf(index));
      e := GetBlockIndexEntryForIndex(index, ledger, |homes|);
      b := blockIndex.entries[e].value.block;
    }

    method Dequeue() returns (r: Option<Item>)
      requires Valid()
      modifies this, parent
      ensures Valid() && tailIndex == old(tailIndex) && sent == old(sent) && LeavesOthers(old(View()), View())
      ensures headIndex == old(headIndex) + if r.Some? then 1 else 0
      ensures r == if old(Contents()) == [] then None else Some(old(Contents())[0])
      ensures Contents() == if old(Contents()) == [] then [] else old(Contents())[1..]
    {
      hide LeavesOthers;
      LeavesSelf(View());
      var tail, overcommit := tailIndex, dequeueOvercommit;
      DequeueTest(View(), dequeueOptimisticCount, overcommit, tail);
      if CircularLess(Minus(W(dequeueOptimisticCount), W(overcommit)), W(tail)) {
        var myDequeueCount := dequeueOptimisticCount;
        dequeueOptimisticCount := dequeueOptimisticCount + 1;
        tail := tailIndex;
        if CircularLess(Minus(W(myDequeueCount), W(overcommit)), W(tail)) {
          var index := headIndex;
          headIndex := headIndex + 1;
          var e, b := FindBlock(index);
          var items := TakeOut(b, e, index, 1);
          return Some(items[0]);
        } else {
          assert false;            // with one thread nothing can have been taken between the two tests
        }
      }
      r := None;
    }

    /** A dequeue that finds, on testing again with its ticket, that others have taken what it saw. */
    method LoseTicket()
      requires Valid()
      modifies this`dequeueOptimisticCount, this`dequeueOvercommit
      ensures Valid()
    {
      dequeueOptimisticCount := dequeueOptimisticCount + 1;
      dequeueOvercommit := dequeueOvercommit + 1;
    }

    method SizeApprox() returns (n: nat)
      requires Valid()
      ensures n == |Contents()|
    {
      SizeTest(View(), headIndex, tailIndex);
      n := if CircularLess(W(headIndex), W(tailIndex)) then Minus(W(tailIndex), W(headIndex)) else 0;
    }

    // ----- Many elements -----

    method FirstSlot(index: nat) returns (slot: nat)
      requires Good(View()) && index == moved < |sent|
      ensures AtSlot(View(), slot, BlockOf(index))
    {
      HeadBlock(View());
      NeededInWindow(View(), BlockOf(index));
      slot := GetBlockIndexIndexForIndex(index, ledger, |homes|);
    }

    /** One round of the bulk loop: the elements of one block, and on to the next slot of the ring. */
    method TakeRound(slot: nat, index: nat, endIndex: nat) returns (taken: seq<Item>, nextSlot: nat)
      requires Good(View()) && index == moved < endIndex && Run(View(), endIndex - index)
      requires AtSlot(View(), slot, BlockOf(index))
      modifies this`moved, this`blockIndex, this`ledger, parent`blocks, parent`freeList
      ensures Good(View()) && moved == endIndex && taken == sent[index..endIndex]
      ensures AtSlot(View(), nextSlot, BlockOf(index) + 1) && LeavesOthers(old(View()), View())
    {
      hide LeavesOthers, Good;
      HeadSlot(View(), slot);
      var e := Slot(blockIndex, Current(blockIndex), slot);
      nextSlot := Res(slot + 1, blockIndex.headers[Current(blockIndex)].capacity);
      taken := TakeOut(blockIndex.entries[e].value.block, e, index, endIndex - index);
    }

    /** Moves the claimed elements out, block by block along the ring. */
    method TakeAll(firstIndex: nat, actualCount: nat) returns (items: seq<Item>)
      requires Good(View()) && firstIndex == moved && actualCount > 0 && firstIndex + actualCount <= |sent|
      modifies this`moved, this`blockIndex, this`ledger, parent`blocks, parent`freeList
      ensures Good(View()) && moved == firstIndex + actualCount && items == sent[firstIndex..firstIndex + actualCount]
      ensures LeavesOthers(old(View()), View())
    {
      hide Good, AtSlot, LeavesOthers;
      ghost var v := View();
      LeavesSelf(v);
      items := [];
      var index := firstIndex;
      var indexIndex := FirstSlot(index);
      while index != firstIndex + actualCount
        invariant Good(View()) && firstIndex <= index == moved <= firstIndex + actualCount <= |sent|
        invariant items == sent[firstIndex..index] && LeavesOthers(v, View())
        invariant index < firstIndex + actualCount ==> AtSlot(View(), indexIndex, BlockOf(index))
        decreases firstIndex + actualCount - index
      {
        var endIndex := Base(index) + BLOCK_SIZE;
        EndOfRound(View(), firstIndex + actualCount);
        if CircularLess(W(firstIndex + actualCount), W(endIndex)) { endIndex := firstIndex + actualCount; }
        ghost var v1 := View();
        var taken, nextSlot := TakeRound(indexIndex, index, endIndex);
        LeavesThrough(v, v1, View());
        assert sent[firstIndex..endIndex] == sent[firstIndex..index] + sent[index..endIndex];
        items, indexIndex, index := items + taken, nextSlot, endIndex;
      }
    }

    /** The elements that are there, up to max of them. */
    method DequeueBulk(max: nat) returns (items: seq<Item>)
      requires Valid()
      modifies this, parent
      ensures Valid() && tailIndex == old(tailIndex) && sent == old(sent) && LeavesOthers(old(View()), View())
      ensures headIndex == old(headIndex) + |items|
      ensures var n := if max < |old(Contents())| then max else |old(Contents())|;
              items == old(Contents())[..n] && Contents() == old(Contents())[n..]
    {
      hide LeavesOthers, Good;
      LeavesSelf(View());
      items := [];
      var tail, overcommit := tailIndex, dequeueOvercommit;
      ghost var left := |sent| - headIndex;
      BulkTest(View(), dequeueOptimisticCount, overcommit, tail);
      var desiredCount := Minus(W(tail), Minus(W(dequeueOptimisticCount), W(overcommit)));
      if CircularLess(0, desiredCount) {
        desiredCount := if desiredCount < max then desiredCount else max;
        var myDequeueCount := dequeueOptimisticCount;
        dequeueOptimisticCount := dequeueOptimisticCount + desiredCount;
        tail := tailIndex;
        var actualCount := Minus(W(tail), Minus(W(myDequeueCount), W(overcommit)));
        if CircularLess(0, actualCount) {
          actualCount := if desiredCount < actualCount then desiredCount else actualCount;
          var firstIndex := headIndex;
          headIndex := headIndex + actualCount;
          // for max == 0 the loop of the code makes one round over no elements
          if actualCount > 0 { items := TakeAll(firstIndex, actualCount); }
        } else {
          assert false;
        }
      }
    }

    method Link(b: Block, next: Option<Block>)
      requires Good(View()) && b in parent.blocks
      modifies parent`blocks
      ensures Good(View()) && parent.blocks == old(parent.blocks)[b := old(parent.blocks[b]).(next := next)]
    {
      LinkKeeps(View(), b, next);
      parent.blocks := parent.blocks[b := parent.blocks[b].(next := next)];
    }

    /** The rollback loop: along the chain forwards, while the tail of the index goes backwards. */
    method ClearEntries(startTailIndex: nat, firstAllocatedBlock: Option<Block>, ghost first: nat) returns (ghost l: Ledger)
      requires Good(View()) && moved <= startTailIndex && first == BlocksFor(startTailIndex) <= |homes|
      requires Chained(parent.blocks, homes, first)
      requires firstAllocatedBlock == if first < |homes| then Some(homes[first]) else None
      modifies this`blockIndex
      ensures Rolling(old(View()), first, |homes| - first, blockIndex, l)
    {
      hide Good;
      ghost var v, m := View(), 0;
      l := ledger;
      RollingStart(v, first);
      var currentTailIndex := Base(startTailIndex - 1);
      var block := firstAllocatedBlock;
      while block.Some?
        invariant first + m <= |homes| && currentTailIndex == BLOCK_SIZE * (first + m) - BLOCK_SIZE
        invariant block == if first + m < |homes| then Some(homes[first + m]) else None
        invariant Rolling(v, first, m, blockIndex, l)
        decreases |homes| - m
      {
        currentTailIndex := currentTailIndex + BLOCK_SIZE;
        ClearNext(v, first, m, l, currentTailIndex);
        l := l.(live := l.live - {first + m});
        block := parent.blocks[block.value].next;
        m := m + 1;
      }
    }

    method ClearNext(ghost v: View, ghost first: nat, ghost m: nat, ghost l: Ledger, currentTailIndex: nat)
      requires Good(v) && Rolling(v, first, m, blockIndex, l) && first + m < |v.homes| && v.head <= BLOCK_SIZE * first
      requires currentTailIndex == BLOCK_SIZE * (first + m)
      modifies this`blockIndex
      ensures Rolling(v, first, m + 1, blockIndex, l.(live := l.live - {first + m}))
    {
      hide Good, IndexOk, Rolling;
      RollingEntry(v, first, m, blockIndex, l);
      var e := GetBlockIndexEntryForIndex(currentTailIndex, l, |v.homes| - m);
      RollingStep(v, first, m, blockIndex, l);
      blockIndex := StoreValue(blockIndex, e, Null);
      RewindBlockIndexTail();
    }

    /** Takes the blocks of a failed bulk enqueue out of the index again and frees them. */
    method UndoBlocks(startTailIndex: nat, firstAllocatedBlock: Option<Block>, ghost first: nat)
      requires Good(View()) && moved <= startTailIndex == |sent| && first == BlocksFor(startTailIndex) <= |homes|
      requires Chained(parent.blocks, homes, first)
      requires firstAllocatedBlock == if first < |homes| then Some(homes[first]) else None
      modifies this`blockIndex, this`ledger, this`homes, parent`freeList
      ensures Good(View()) && homes == old(homes)[..first]
      ensures ledger.slots == old(ledger.slots)[..first]
              && forall j: nat :: j in ledger.live <==> j in old(ledger.live) && j < first
      ensures parent.freeList == Reversed(old(homes)[first..]) + old(parent.freeList)
    {
      hide Good, Rolling, IndexOk;
      ghost var v := View();
      ghost var l := ClearEntries(startTailIndex, firstAllocatedBlock, first);
      UndoView(v, first, blockIndex, l);
      parent.AddBlocksToFreeList(firstAllocatedBlock, homes[first..]);
      ghost var ix := blockIndex;
      ledger, homes := Shortened(l, first), homes[..first];
      assert View() == RolledBack(v, first, ix, l);
    }

    /** The new block ends the chain, and hangs on the block before it if that is part of it. */
    method LinkIn(b: Block, last: Option<Block>, ghost v: View, ghost taken: seq<Block>)
      requires Good(View()) && TookOnly(v, View(), taken) && b in parent.blocks && (last.Some? ==> last.value in parent.blocks)
      modifies parent`blocks
      ensures Good(View()) && TookOnly(v, View(), taken) && parent.blocks == Hung(old(parent.blocks), b, last)
    {
      hide Good, TookOnly;
      TookLinked(v, View(), taken, b, None);
      Link(b, None);
      if last.Some? {
        TookLinked(v, View(), taken, last.value, Some(b));
        Link(last.value, Some(b));
      }
    }

    /** Hangs the block just obtained on the one before it. */
    method HangBlock(b: Block, startTailIndex: nat, first: Option<Block>, ghost v: View, ghost v0: View)
      requires Reserved(v, v0, startTailIndex, first) && Good(View()) && TakesBlock(v0, View(), b) && homes == v0.homes + [b]
      requires ledger.live == v0.ledger.live + {|v0.homes|} && |ledger.slots| == |homes|
      requires ledger.slots[..|v0.homes|] == v0.ledger.slots && moved == v0.head && sent == v0.sent
      requires |v0.homes| > 0 ==> tailBlock == Some(v0.homes[|v0.homes| - 1])
      modifies this`tailBlock, parent`blocks
      ensures tailBlock == Some(b) && Reserved(v, View(), startTailIndex, if first.None? then Some(b) else first)
    {
      ghost var v1 := View();
      BeforeHanging(v, v0, v1, startTailIndex, first, b);
      hide Reserved, Good, TookOnly, TakesBlock, Hung, FirstLinked;
      var last := if startTailIndex % BLOCK_SIZE != 0 || first.Some? then tailBlock else None;
      LinkIn(b, last, v, v0.homes[|v.homes|..] + [b]);
      tailBlock := Some(b);
      AfterHanging(v, v0, v1, View(), startTailIndex, first, b);
    }

    /** The next block of a bulk enqueue. */
    method AppendBlock(base: nat, startTailIndex: nat, first: Option<Block>, canAlloc: bool, ghost v: View)
      returns (b: Option<Block>)
      requires Reserved(v, View(), startTailIndex, first) && base == BLOCK_SIZE * |homes| && headIndex == moved
      requires |homes| > 0 ==> tailBlock == Some(homes[|homes| - 1])
      modifies this`blockIndex, this`ledger, this`homes, this`tailBlock, parent
      ensures b.None? ==> tailBlock == old(tailBlock) && homes == old(homes) && Reserved(v, View(), startTailIndex, first)
      ensures b.Some? ==> tailBlock == b && homes == old(homes) + [b.value]
      ensures b.Some? ==> Reserved(v, View(), startTailIndex, if first.None? then b else first)
      ensures Obtains(old(View()), View(), b.Some?, parent.refusals - old(parent.refusals), canAlloc)
    {
      ghost var v0 := View();
      ReservedGood(v, v0, startTailIndex, first);
      hide Reserved, Good, Obtains, TakesBlock, Untouched;
      b := NewBlock(base, canAlloc);
      ghost var refused := parent.refusals - old(parent.refusals);
      if b.Some? {
        ghost var v1 := View();
        HangBlock(b.value, startTailIndex, first, v, v0);
        ObtainsSame(v0, v1, View(), true, refused, canAlloc);
      } else {
        ReserveSame(v, v0, View(), startTailIndex, first);
      }
    }

    method RevertReservation(startTailIndex: nat, firstAllocatedBlock: Option<Block>, startBlock: Option<Block>, ghost v: View)
      requires Reserved(v, View(), startTailIndex, firstAllocatedBlock)
      modifies this`blockIndex, this`ledger, this`homes, this`tailBlock, parent`freeList
      ensures Good(View()) && homes == v.homes && tailBlock == startBlock && TookOnly(v, View(), [])
      ensures ledger.slots == v.ledger.slots && ledger.live == v.ledger.live
    {
      hide Good, TookOnly;
      ghost var full := View();
      UndoBlocks(startTailIndex, firstAllocatedBlock, |v.homes|);
      TookNothing(v, full, View(), full.homes[|v.homes|..]);
      tailBlock := startBlock;
    }

    /** Allocates and indexes every block a bulk enqueue will need, or none of them. */
    method ReserveBlocks(startTailIndex: nat, count: nat, canAlloc: bool)
      returns (ok: bool, firstAllocatedBlock: Option<Block>, endBlock: Option<Block>)
      requires Valid() && startTailIndex == tailIndex
      modifies this`blockIndex, this`ledger, this`homes, this`tailBlock, parent
      ensures !ok ==> Good(View()) && homes == old(homes) && tailBlock == old(tailBlock) && TookOnly(old(View()), View(), [])
      ensures !ok ==> ledger.slots == old(ledger.slots) && ledger.live == old(ledger.live)
      ensures ok ==>
              Reserved(old(View()), View(), startTailIndex, firstAllocatedBlock)
              && |homes| == BlocksFor(startTailIndex + count)
      ensures ok ==> endBlock == if |homes| > 0 then Some(homes[|homes| - 1]) else old(tailBlock)
      ensures BlocksFor(startTailIndex) == |old(homes)| <= BlocksFor(startTailIndex + count)
      ensures ObtainsAll(old(View()), BlocksFor(startTailIndex + count) - |old(homes)|, ok,
                         parent.refusals - old(parent.refusals), canAlloc)
    {
      hide Good, Reserved, OnTheWay, Obtains, ObtainsAll;
      ghost var v := View();
      ReserveStart(v);
      SettledBlocks(v);
      ghost var n := BlocksFor(startTailIndex + count) - |homes|;
      Underway(v, n, canAlloc);
      var startBlock := tailBlock;
      firstAllocatedBlock, endBlock := None, tailBlock;
      var blockBaseDiff := Base(startTailIndex + count - 1) - Base(startTailIndex - 1);
      var currentTailIndex := Base(startTailIndex - 1);
      while blockBaseDiff > 0
        invariant Reserved(v, View(), startTailIndex, firstAllocatedBlock)
        invariant currentTailIndex == BLOCK_SIZE * |homes| - BLOCK_SIZE
        invariant 0 <= blockBaseDiff == BLOCK_SIZE * (BlocksFor(startTailIndex + count) - |homes|)
        invariant tailBlock == endBlock == if |homes| > 0 then Some(homes[|homes| - 1]) else startBlock
        invariant OnTheWay(v, View(), n, BlocksFor(startTailIndex + count) - |homes|, canAlloc)
        invariant parent.refusals == old(parent.refusals)
        decreases blockBaseDiff
      {
        ghost var now := View();
        blockBaseDiff := blockBaseDiff - BLOCK_SIZE;
        currentTailIndex := currentTailIndex + BLOCK_SIZE;
        var newBlock := AppendBlock(currentTailIndex, startTailIndex, firstAllocatedBlock, canAlloc, v);
        OneBlockMore(v, now, View(), n, BlocksFor(startTailIndex + count) - |now.homes|, newBlock.Some?,
                parent.refusals - old(parent.refusals), canAlloc);
        if newBlock.None? {
          RevertReservation(startTailIndex, firstAllocatedBlock, startBlock, v);
          return false, firstAllocatedBlock, endBlock;
        }
        endBlock := newBlock;
        firstAllocatedBlock := if firstAllocatedBlock.None? then newBlock else firstAllocatedBlock;
      }
      ReservedGood(v, View(), startTailIndex, firstAllocatedBlock);
      AllObtained(v, View(), n, canAlloc);
      ok := true;
    }

    /** The elements of one block. */
    method ConstructSome(index: nat, stopIndex: nat, items: seq<Item>)
      requires Good(View()) && index == |sent| <= stopIndex <= BLOCK_SIZE * |homes| && |items| == stopIndex - index
      requires index < stopIndex ==>
              BlockOf(index) == BlockOf(stopIndex - 1) < |homes| && tailBlock == Some(homes[BlockOf(index)])
      modifies this`sent, parent`blocks
      ensures Good(View()) && sent == old(sent) + items && SameLinks(old(parent.blocks), parent.blocks)
      ensures LeavesOthers(old(View()), View())
    {
      hide Good, Held, LeavesOthers;
      ghost var v := View();
      LeavesSelf(v);
      var currentTailIndex := index;
      while currentTailIndex != stopIndex
        invariant Good(View()) && index <= currentTailIndex == |sent| <= stopIndex
        invariant sent == old(sent) + items[..currentTailIndex - index]
        invariant SameLinks(old(parent.blocks), parent.blocks) && LeavesOthers(v, View())
        decreases stopIndex - currentTailIndex
      {
        ghost var v1 := View();
        Construct(currentTailIndex, items[currentTailIndex - index]);
        LeavesThrough(v, v1, View());
        currentTailIndex := currentTailIndex + 1;
      }
    }

    // One round: the elements that fall into the block at the write position.
    method WriteBlock(index: nat, newTailIndex: nat, items: seq<Item>, ghost jb: nat) returns (stopIndex: nat)
      requires AtWrite(View(), jb, index, newTailIndex) && |items| == newTailIndex - index
      requires |homes| > 0 ==> jb < |homes| && tailBlock == Some(homes[jb])
      modifies this`sent, parent`blocks
      ensures index <= stopIndex <= newTailIndex && sent == old(sent) + items[..stopIndex - index]
      ensures Good(View()) && LeavesOthers(old(View()), View())
      ensures stopIndex == newTailIndex ==> |homes| > 0 ==> jb == |homes| - 1
      ensures stopIndex != newTailIndex ==> jb + 1 < |homes| && homes[jb] != homes[|homes| - 1] && homes[jb] in parent.blocks
      ensures stopIndex != newTailIndex ==>
                AtWrite(View(), jb + 1, stopIndex, newTailIndex) && parent.blocks[homes[jb]].next == Some(homes[jb + 1])
    {
      hide AtWrite, CircularLess, SameLinks, Good, LinkedSoFar, LeavesOthers, IndexOk, PoolGood, Held, Unused;
      ghost var v := View();
      WriteRound(v, jb, index, newTailIndex);
      stopIndex := Base(index) + BLOCK_SIZE;
      if CircularLess(W(newTailIndex), W(stopIndex)) { stopIndex := newTailIndex; }
      ConstructSome(index, stopIndex, items[..stopIndex - index]);
      WriteNext(v, View(), jb, index, stopIndex, newTailIndex);
    }

    /** Writes the elements into the reserved blocks, one block at a time, along the links. */
    method WriteItems(startTailIndex: nat, items: seq<Item>, endBlock: Option<Block>, ghost first: nat)
      requires AtWrite(View(), first, startTailIndex, startTailIndex + |items|)
      requires |homes| > 0 ==> first < |homes| && tailBlock == Some(homes[first]) && endBlock == Some(homes[|homes| - 1])
      requires |homes| == 0 ==> tailBlock == endBlock
      modifies this`sent, this`tailBlock, parent`blocks
      ensures Good(View()) && sent == old(sent) + items && tailBlock == endBlock && LeavesOthers(old(View()), View())
    {
      hide AtWrite, Good, LeavesOthers, IndexOk, PoolGood, Held, Unused;
      ghost var v := View();
      LeavesSelf(v);
      var newTailIndex := startTailIndex + |items|;
      var currentTailIndex := startTailIndex;
      ghost var jb := first;
      while true
        invariant startTailIndex <= currentTailIndex <= newTailIndex && AtWrite(View(), jb, currentTailIndex, newTailIndex)
        invariant sent == old(sent) + items[..currentTailIndex - startTailIndex] && LeavesOthers(v, View())
        invariant |homes| > 0 ==> jb < |homes| && tailBlock == Some(homes[jb])
        invariant |homes| == 0 ==> tailBlock == endBlock
        decreases |homes| - jb
      {
        ghost var before := View();
        var done := currentTailIndex - startTailIndex;
        var stopIndex := WriteBlock(currentTailIndex, newTailIndex, items[done..], jb);
        assert items[..stopIndex - startTailIndex] == items[..done] + items[done..][..stopIndex - currentTailIndex];
        LeavesThrough(v, before, View());
        currentTailIndex := stopIndex;
        if tailBlock == endBlock {
          assert currentTailIndex == newTailIndex;
          break;
        }
        tailBlock := parent.blocks[tailBlock.value].next;
        jb := jb + 1;
      }
      assert items[..|items|] == items;
    }

    /** The write loop starts in the partly filled block, or in the first new one. */
    method StartWriting(startTailIndex: nat, startBlock: Option<Block>, first: Option<Block>, newTailIndex: nat, ghost v: View)
      returns (ghost jb: nat)
      requires Reserved(v, View(), startTailIndex, first) && startTailIndex <= newTailIndex && |homes| == BlocksFor(newTailIndex)
      requires |v.homes| > 0 ==> startBlock == Some(v.homes[|v.homes| - 1])
      modifies this`tailBlock
      ensures AtWrite(View(), jb, startTailIndex, newTailIndex)
      ensures |homes| > 0 ==> jb < |homes| && tailBlock == Some(homes[jb])
      ensures |homes| == 0 ==> tailBlock == startBlock
    {
      WriteStart(v, View(), startTailIndex, first, newTailIndex);
      hide Good, AtWrite;
      tailBlock := startBlock;
      jb := if |v.homes| == 0 then 0 else |v.homes| - 1;
      if startTailIndex % BLOCK_SIZE == 0 && first.Some? {
        tailBlock := first;
        jb := |v.homes|;
      }
    }

    /** All of the elements, or none of them and everything as it was. */
    method EnqueueBulk(items: seq<Item>, canAlloc: bool) returns (ok: bool)
      requires Valid()
      modifies this, parent
      ensures Valid() && headIndex == old(headIndex) && LeavesOthers(old(View()), View())
      ensures sent == if ok then old(sent) + items else old(sent)
      ensures Contents() == if ok then old(Contents()) + items else old(Contents())
      ensures !ok ==> tailIndex == old(tailIndex) && tailBlock == old(tailBlock) && homes == old(homes)
      ensures !ok ==> ledger.live == old(ledger.live) && ledger.slots == old(ledger.slots)
      ensures !ok ==> TookOnly(old(View()), View(), [])
      ensures BlocksFor(old(tailIndex)) == |old(homes)| <= BlocksFor(old(tailIndex) + |items|)
      ensures var n := BlocksFor(old(tailIndex) + |items|) - |old(homes)|;
              && (ok <==> old(RoomFor(View(), n)) && parent.refusals == old(parent.refusals)
                          && (canAlloc || old(CanHold(View(), n))))
              && (old(CanHold(View(), n)) || !canAlloc ==> parent.refusals == old(parent.refusals))
    {
      hide Good, Reserved, AtWrite, TookOnly, LeavesOthers, CanHold, RoomFor;
      ghost var v := View();
      SentBounds(v);
      var startTailIndex, startBlock := tailIndex, tailBlock;
      var first, endBlock;
      ok, first, endBlock := ReserveBlocks(startTailIndex, |items|, canAlloc);
      if !ok {
        assert homes == v.homes + [];
        TookLeaves(v, View(), []);
        return false;
      }
      ReservedLeaves(v, View(), startTailIndex, first);
      ghost var v1 := View();
      ghost var jb := StartWriting(startTailIndex, startBlock, first, startTailIndex + |items|, v);
      WriteItems(startTailIndex, items, endBlock, jb);
      LeavesThrough(v, v1, View());
      tailIndex := startTailIndex + |items|;
    }
  }

  lemma SlotInBlock(index: nat, k: nat)
    requires k == 0 || BlockOf(index + k) == BlockOf(index)
    ensures (index + k) % BLOCK_SIZE == index % BLOCK_SIZE + k
  {
  }

  lemma ResSmall(a: nat, m: nat)
    requires a < m
    ensures Res(a, m) == a
  {
  }

  /** One step around the ring; it comes back to its start exactly after a full turn. */
  lemma ResStep(a: nat, i: nat, m: nat)
    requires a < m && i < m
    ensures Res(Res(a + i, m) + 1, m) == Res(a + 1 + i, m)
    ensures Res(a + 1 + i, m) == a <==> i + 1 == m
  {
    CongShift(Res(a + i, m), a + i, 1, m);
    ResSmall(a, m);
    if i + 1 == m { CongBy(a + m, a, m, 1); }
    else if Res(a + 1 + i, m) == a { CongUnique(a + 1 + i, a, m); }
  }
}
