module Blocks {
  /* The blocks of a queue and where new ones come from (src/concurrentqueue.h), in one thread. */

  import opened BlockIndex
  import opened CircularArithmetic
  import opened Options

  type Item = nat

  /** A block's memory: `done` is elementsCompletelyDequeued, `next` the chain link of enqueue_bulk. */
  datatype Storage = Storage(elements: seq<Option<Item>>, done: nat, next: Option<Block>)

  /** A block that requisition_block may hand out at some time without allocating. */
  ghost predicate Unused(b: Block, size: nat, next: nat, free: seq<Block>) { next <= b < size || b in free }

  /** How many blocks can be had without allocating. */
  function Spare(size: nat, next: nat, free: seq<Block>): nat { (if next < size then size - next else 0) + |free| }

  ghost predicate PoolGood(blocks: map<Block, Storage>, size: nat, next: nat, free: seq<Block>) {
    && (forall b <- blocks :: |blocks[b].elements| == BLOCK_SIZE)
    && (forall b | 0 <= b < size :: b in blocks)
    && (forall b <- free :: b in blocks && !(next <= b < size))
    && (forall i, k | 0 <= i < k < |free| :: free[i] != free[k])
  }

  /** The blocks of a chain, in order. */
  ghost predicate Linked(blocks: map<Block, Storage>, first: Option<Block>, chain: seq<Block>)
    decreases |chain|
  {
    if chain == [] then first == None
    else first == Some(chain[0]) && chain[0] in blocks && Linked(blocks, blocks[chain[0]].next, chain[1..])
  }

  ghost function Reversed(s: seq<Block>): (r: seq<Block>)
    ensures |r| == |s|
    ensures forall b :: b in r <==> b in s
    ensures forall i | 0 <= i < |s| :: r[i] == s[|s| - 1 - i]
  {
    if s == [] then [] else Reversed(s[1..]) + [s[0]]
  }

  class BlockPool {
    var blocks: map<Block, Storage>
    const initialBlockPoolSize: nat
    var initialBlockPoolIndex: nat
    var freeList: seq<Block>                    // head first
    ghost var refusals: nat                     // how often malloc has failed

    ghost predicate Valid()
      reads this
    {
      PoolGood(blocks, initialBlockPoolSize, initialBlockPoolIndex, freeList)
    }

    /** populate_initial_block_list. */
    constructor (size: nat)
      ensures Valid() && forall b: Block :: b in blocks <==> b < size
      ensures initialBlockPoolSize == size && initialBlockPoolIndex == 0 && freeList == []
      ensures refusals == 0
    {
      var pool: map<Block, Storage>, i := map[], 0;
      while i < size
        invariant i <= size && forall b: Block :: b in pool <==> b < i
        invariant forall b <- pool :: |pool[b].elements| == BLOCK_SIZE
      {
        pool := pool[i := Storage(seq(BLOCK_SIZE, _ => None), 0, None)];
        i := i + 1;
      }
      blocks, initialBlockPoolSize, initialBlockPoolIndex, freeList := pool, size, 0, [];
      refusals := 0;
    }

    /** The initial pool first, then the free list, then malloc. */
    method RequisitionBlock(canAlloc: bool) returns (b: Option<Block>)
      requires Valid()
      modifies this
      ensures Valid()
      ensures old(initialBlockPoolIndex) < initialBlockPoolSize ==>
                b == Some(old(initialBlockPoolIndex)) && initialBlockPoolIndex == old(initialBlockPoolIndex) + 1
                && freeList == old(freeList) && blocks == old(blocks)
      ensures old(initialBlockPoolIndex) >= initialBlockPoolSize ==> initialBlockPoolIndex == old(initialBlockPoolIndex)
      ensures old(initialBlockPoolIndex) >= initialBlockPoolSize && old(freeList) != [] ==>
                b == Some(old(freeList)[0]) && freeList == old(freeList)[1..] && blocks == old(blocks)
      ensures old(initialBlockPoolIndex) >= initialBlockPoolSize && old(freeList) == [] ==>
                freeList == [] && match b
                case None => blocks == old(blocks)
                case Some(new_) =>
                  canAlloc && new_ !in old(blocks) && new_ in blocks && blocks == old(blocks)[new_ := blocks[new_]]
      ensures refusals == old(refusals) || (refusals == old(refusals) + 1 && canAlloc)
      ensures b.Some? <==>
                refusals == old(refusals)
                && (canAlloc || Spare(initialBlockPoolSize, old(initialBlockPoolIndex), old(freeList)) > 0)
      ensures Spare(initialBlockPoolSize, old(initialBlockPoolIndex), old(freeList)) > 0 ==>
                refusals == old(refusals)
                && Spare(initialBlockPoolSize, initialBlockPoolIndex, freeList)
                   == Spare(initialBlockPoolSize, old(initialBlockPoolIndex), old(freeList)) - 1
      ensures b.Some? ==> b.value in blocks && !Unused(b.value, initialBlockPoolSize, initialBlockPoolIndex, freeList)
      ensures b.Some? && b.value in old(blocks) ==>
              Unused(b.value, initialBlockPoolSize, old(initialBlockPoolIndex), old(freeList))
      ensures b.Some? ==> forall c | c != b.value ::
        Unused(c, initialBlockPoolSize, initialBlockPoolIndex, freeList)
        == Unused(c, initialBlockPoolSize, old(initialBlockPoolIndex), old(freeList))
    {
      if initialBlockPoolIndex < initialBlockPoolSize {
        b := Some(initialBlockPoolIndex);
        initialBlockPoolIndex := initialBlockPoolIndex + 1;
        return;
      }
      if |freeList| > 0 {
        b := Some(freeList[0]);
        freeList := freeList[1..];
        return;
      }
      b := None;
      if canAlloc {
        b := Malloc(true);
        if b.Some? { blocks := blocks[b.value := Storage(seq(BLOCK_SIZE, _ => None), 0, None)]; }
      }
    }

    /** Traits::malloc: new memory, or none; never any for more than fits. */
    method Malloc(fits: bool) returns (raw: Option<Block>)
      modifies this`refusals
      ensures raw.Some? ==> fits && raw.value !in blocks
      ensures refusals == old(refusals) + if raw.Some? then 0 else 1
    {
      raw :| raw.Some? ==> raw.value !in blocks;
      if !fits { raw := None; }
      if raw.None? { refusals := refusals + 1; }
    }

    method AddBlockToFreeList(b: Block)
      requires Valid() && b in blocks && !Unused(b, initialBlockPoolSize, initialBlockPoolIndex, freeList)
      modifies this`freeList
      ensures Valid() && freeList == [b] + old(freeList)
    {
      freeList := [b] + freeList;
    }

    /** Gives back a chain of blocks, following the links. */
    method AddBlocksToFreeList(first: Option<Block>, ghost chain: seq<Block>)
      requires Valid() && Linked(blocks, first, chain)
      requires forall k | 0 <= k < |chain| ::
               chain[k] in blocks && !Unused(chain[k], initialBlockPoolSize, initialBlockPoolIndex, freeList)
      requires forall i, k | 0 <= i < k < |chain| :: chain[i] != chain[k]
      modifies this`freeList
      ensures Valid() && freeList == Reversed(chain) + old(freeList)
    {
      var block := first;
      ghost var rest := chain;
      assert Reversed(rest) + freeList == Reversed(chain) + old(freeList);
      while block.Some?
        invariant Valid() && Linked(blocks, block, rest)
        invariant forall k | 0 <= k < |rest| ::
                 rest[k] in blocks && !Unused(rest[k], initialBlockPoolSize, initialBlockPoolIndex, freeList)
        invariant forall i, k | 0 <= i < k < |rest| :: rest[i] != rest[k]
        invariant Reversed(rest) + freeList == Reversed(chain) + old(freeList)
        decreases |rest|
      {
        var next := blocks[block.value].next;
        assert Reversed(rest) + freeList == Reversed(rest[1..]) + ([block.value] + freeList);
        AddBlockToFreeList(block.value);
        block := next;
        rest := rest[1..];
      }
    }
  }
}
