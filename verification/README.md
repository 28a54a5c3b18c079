# A verified model of the pool server's nonce pipeline

A mining pool server receives nonces on many connection threads, hands them through a lock-free
queue to one distributor thread, which collects them into batches; a batch is validated by computing
the deadline of every nonce with a SIMD implementation of the Shabal hash; the best deadlines of a
round are submitted, and a token bucket limits each client. This project models those pieces in
Dafny and proves what each of them is for. `dafny verify dfyconfig.toml` checks all of it.

## How the source is modelled

**Concurrent code is a transition system.** `FreeList`, `DequeueCounters`, `ConcurrentProducers`,
`QueueProduct`, `ProducerHash`, `RateLimiter` and `MinerRounds` each have a state, program counters for a finite set
of threads, and one transition per access to shared memory (or per lock operation), interleaved in
any order. A main result quantifies over every `Execution`: any run, any length, any scheduling.
Variables called history are read by no transition. Where a transition follows a pointer, `Defined`
or `WellFormed` says that it can, and a lemma shows that no reachable state lacks it, so that no run
is cut short.

**Code that updates an object is a class.** `ImplicitProducer`, `BlockPool`, `ConcurrentQueue`,
`LaneContext` (the SIMD hash context), `AsmContext` (the assembly context), `TokenBucket`, `Limiter`
and `Distributor` have the fields, loops and branches of the source. Their methods are specified by
the contents they represent: a sequence for a queue, the message hashed so far for a hash context.

**The pieces lean on each other.** The free list is verified alone and is one transition in the
producers' machine; so is the claim of a dequeuer, whose correctness is `DequeueCounters`. `QueueProduct`
runs the three machines as one: what one of them takes for granted at such a transition is shown to be
what the others provide. `TryDequeue` is the sequential whole: producers that share a block pool. The
slot arithmetic and the block-index invariant (`BlockIndex`, `BlockIndexInvariant`) serve the
interleaved machine and the sequential class alike. `Shabal` and `ShabalHash` are the reference that
the 4-lane, 8-lane and assembly forms are proved equal to, and `BurstMath` uses the resulting
contracts. Indices, counters and keys are kept unwrapped, and every comparison or slot computation
is made on their 64-bit words (`CircularArithmetic`).

| files | what |
|---|---|
| `FreeList`, `DequeueCounters`, `ConcurrentProducers` and its proof (`ProducersInvariant`, `EnqueuerSteps`, `DequeuerSteps`, `BlockRecycling`, `ProducersSafety`, `ProducersProgress`), `QueueProduct`, `ProducerHash`, `ProducerHashProgress` | the queue under interleaving |
| `CircularArithmetic`, `BlockIndex`, `BlockIndexInvariant`, `Blocks`, `SequentialView`, `ImplicitProducer`, `ProducerRuns`, `TryDequeue`, `Options` | index arithmetic, and the queue as objects |
| `Shabal`, `ShabalHash`, `ShabalLanes`, `ShabalContext`, `ShabalUnrolled`, `InitialState` | the hash in three forms, and the assembly's precomputed initial state |
| `BurstMath`, `DeadlineRequests`, `MinerRounds`, `RateLimiter` | deadlines, batches, submissions, rate limit |

## Where the code and its comments disagree

- `src/concurrentqueue.h:2867-2868` says the division keeps the sign of a negative offset. `BLOCK_SIZE`
  is a `size_t`, so the signed difference is converted back and the division is unsigned. The slot
  is right all the same, exactly when capacity * BLOCK_SIZE divides 2^64: `BlockIndex.LookupSlotExact`.
- `validate_deadlines` (`src/DeadlineRequestHandler.cpp:14`, `:42`) picks the PoC version of the whole
  batch by the height of its first request. That is right exactly for batches on one side of the PoC2
  height: `DeadlineRequests.BatchingIsRight`. A batch that straddles it is posted in
  `DeadlineRequests.StraddlingRun`, with a plot on which its second request is computed from the wrong bytes.

## Model

| member | source | states |
|---|---|---|
| FreeList.StepInv | src/concurrentqueue.h:1372-1451 | every atomic step of any thread keeps: each node has one place, the chain from the head is acyclic, each 32-bit reference word counts exactly its holders, the list and the should-be-on-list bit |
| FreeList.ExclusiveOwnership | src/concurrentqueue.h:1372-1451 | in every reachable state a node is spoken for at most once (client, list, or one responsible thread), and a node nobody speaks for is flagged and still referenced |
| FreeList.AssertHolds | src/concurrentqueue.h:1406 | the assert in try_get never fails |
| FreeList.HeadCasRemovesHead | src/concurrentqueue.h:1400-1411 | no ABA: a successful compare-exchange of the head takes exactly the first node and leaves the rest of the chain |
| FreeList.NextStableWhileHeld | src/concurrentqueue.h:1400-1403 | while any thread holds a reference to a node, no step of any thread changes its next pointer |
| FreeList.QuiescentComplete | src/concurrentqueue.h:1379-1419 | when no call is in progress every node is with a client or reachable from the head, and not both |
| FreeList.TakenOnce | src/concurrentqueue.h:1387-1423 | two try_get calls return a node only with an add of it in between |
| FreeList.ObstructionFree | src/concurrentqueue.h:1372-1451 | from every reachable state, whatever the other threads have left unfinished, a thread that runs alone ends its call within 28 steps |
| FreeList.GivesUpOnNull | src/concurrentqueue.h:1387-1423 | in every interleaving a try_get call that ends hands out the node it last read at the head, and comes away with nothing if and only if it last read null |
| FreeList.LoneTryGet | src/concurrentqueue.h:1387-1423 | with no other call in progress try_get takes exactly the head in seven steps and leaves the rest of the chain as it was |
| FreeList.LoneAdd | src/concurrentqueue.h:1376-1385 | and add makes the node the head, in front of the chain there was, in five |
| CircularArithmetic.CircularLessWindow | src/concurrentqueue.h:405-414 | the word comparison is the integer comparison exactly on distances in (-2^63, 2^63], and one step outside gives the opposite answer |
| DequeueCounters.StepInv | src/concurrentqueue.h:2470-2539 | every step of the enqueuer or of any dequeuer keeps the ticket invariant of head, tail, optimistic and overcommit counts |
| DequeueCounters.ShortRunsAreTimely | src/concurrentqueue.h:2470-2539 | a run of any interleaving that draws fewer than 2^63 tickets and publishes fewer than 2^63 elements is timely, however long any dequeuer sleeps |
| DequeueCounters.SingleIsBulkOfOne | src/concurrentqueue.h:2475-2482 | the two tests of the single dequeue, on the words themselves, are those of a bulk dequeue with max = 1 |
| DequeueCounters.SnapshotCovered | src/concurrentqueue.h:2473-2481 | a dequeuer's overcommit snapshot never exceeds the number of failed attempts with a smaller ticket; so the assert at 2480 holds |
| DequeueCounters.ClaimIsPublished | src/concurrentqueue.h:2482-2483 | in every interleaving fetch_add on headIndex hands out only indices below tailIndex |
| DequeueCounters.HandedOutOnce | src/concurrentqueue.h:2695-2715 | every index below headIndex was handed out by exactly one claim of the run |
| DequeueCounters.QuiescentCounters | src/concurrentqueue.h:2470-2539 | with no call in progress, optimistic count - overcommit = headIndex <= tailIndex |
| DequeueCounters.DecidesByEarlier | src/concurrentqueue.h:2700-2714 | in every interleaving a caller gets just what the published elements leave over after the earlier tickets that have not failed and the earlier failures its snapshot does not count |
| DequeueCounters.LoneDequeue | src/concurrentqueue.h:2695-2715 | a dequeue with no other call in progress takes min(max, what is there), and comes away with nothing only from an empty queue |
| DequeueCounters.ReserveKeepsExtent | src/concurrentqueue.h:2415-2417 | the fullness test on words keeps head and reserved tail less than 2^63 apart |
| BlockIndex.LookupSlotExact | src/concurrentqueue.h:2857-2873 | wrapped subtraction, unsigned division and masking give the true block offset from the tail, for all pairs of blocks, if and only if capacity * BLOCK_SIZE divides 2^64 |
| BlockIndexInvariant.CapacityFits | src/concurrentqueue.h:2875-2917 | every ring size the producer can reach meets that condition |
| BlockIndexInvariant.LookupFindsPos | src/concurrentqueue.h:2857-2873 | from any published ring, tail slot and key that fits it, the lookup gives the slot of the wanted block |
| BlockIndexInvariant.StoreKeyOk | src/concurrentqueue.h:2821-2828 | storing the next key in a free slot disturbs no block in use, in the current ring or in any older one |
| BlockIndexInvariant.GrowOk | src/concurrentqueue.h:2875-2917 | unrolling a full ring into one twice as large keeps every live block in place in the new ring and in all old ones, and gives the refused block a fresh slot |
| BlockIndexInvariant.RewindTailOk | src/concurrentqueue.h:2844-2848 | rewinding the tail keeps the index |
| BlockIndexInvariant.PlaceOk | src/concurrentqueue.h:2452-2455 | storing the block in the keyed entry makes it live, and only it |
| BlockIndexInvariant.ClearOk | src/concurrentqueue.h:2515-2529 | clearing the entry of a drained block keeps every other live block |
| ProducersSafety.StepInv | src/concurrentqueue.h:2406-2540 | every step of every enqueuer and dequeuer of every producer is defined and keeps the invariant of index, blocks, elements and pools |
| ProducersSafety.AccessesDefined | src/concurrentqueue.h:2406-2540 | no reachable state has a thread about to follow a pointer that is not there |
| ProducersSafety.LookupIsStable | src/concurrentqueue.h:2857-2873 | the assert on the found slot: whatever header, tail and key the dequeuer read, and whatever was grown, wrapped or rewound since, its slot is keyed by its block's base and holds the block |
| ProducersSafety.MovesWhatWasSent | src/concurrentqueue.h:2486-2513 | the dequeuer that holds index n moves out the n-th element published |
| ProducersSafety.MovedOnce | src/concurrentqueue.h:2489-2513 | no element is moved out twice, by whatever threads |
| ProducersSafety.CompletesWhenAllMoved | src/concurrentqueue.h:1509-1547 | set_empty and set_many_empty return true only when all BLOCK_SIZE elements of a live block have been moved out |
| ProducersSafety.CompletesOnce | src/concurrentqueue.h:1509-1547 | and return true at most once per fill |
| ProducersSafety.LiveUntilCounted | src/concurrentqueue.h:2515-2529 | a block is live if and only if some element of it has not been counted out: the last count is never missed |
| ProducersSafety.BlockConservation | src/concurrentqueue.h:2965-3017 | in every reachable state each block is in exactly one of the initial pool, the free list, an enqueuer's hands, or one fill of one producer |
| ProducersSafety.WritesGoToLiveBlock | src/concurrentqueue.h:2406-2468 | an element is only ever constructed in the live block the producer put in last: a stale tailBlock is never written |
| ProducersProgress.PublishesUnlessRefused | src/concurrentqueue.h:2406-2468 | in every interleaving an enqueue call ends with exactly its element published, or, if and only if 2^63 indices were in use or memory was refused to it on the way, with nothing published |
| ProducersProgress.PoolFirst | src/concurrentqueue.h:2965-3017 | the free list is asked only when the initial pool is used up, and memory only after that |
| ProducersProgress.EndedCallMovedAll | src/concurrentqueue.h:2486-2513 | a dequeue call that has ended has itself moved out every element it claimed |
| ProducersProgress.EnqueuerEnds | src/concurrentqueue.h:2406-2468 | the enqueuer is wait-free: it always has a step, nobody else moves it, and its call ends within 14 of them |
| ProducersProgress.DequeuerEnds | src/concurrentqueue.h:2482-2529 | so is a dequeuer that has claimed n elements, within 5 n + 4 |
| QueueProduct.GlueKept | src/concurrentqueue.h:1372-3017 | every step of the free list, the counters and the producers run together keeps their agreement: the same indices, and the same blocks in clients' hands |
| QueueProduct.RunProjects | src/concurrentqueue.h:1372-3017 | every state of a run of the whole queue ends, machine by machine, an execution of that machine alone, so the invariants proved of each hold of the whole |
| QueueProduct.NeverRefused | src/concurrentqueue.h:1372-3017 | in a reachable state whatever a thread can see enabled is allowed by all machines: a claim is of published elements, try_get returns only blocks on the free list, add is given only blocks that are not |
| Blocks.BlockPool.RequisitionBlock | src/concurrentqueue.h:2965-3017 | the next block of the initial pool while there is one, then the first of the free list, and only then, if allowed, a newly allocated one; fails if and only if there is neither and allocation is not allowed or refused, and then changes nothing |
| Blocks.BlockPool.AddBlocksToFreeList | src/concurrentqueue.h:2984-2991 | following the links gives back exactly the blocks of the chain |
| SequentialView.RollingStep | src/concurrentqueue.h:2584-2590 | one round of the rollback loop - look a block up forwards while the tail goes backwards - takes exactly that block out of the index |
| SequentialView.RollBack | src/concurrentqueue.h:2578-2594 | after the rollback the producer is as before the first block was added |
| SequentialView.TakeLast | src/concurrentqueue.h:2515-2529 | the count reaches BLOCK_SIZE with the last element, and clearing and freeing the block then loses nothing |
| SequentialView.WriteElement | src/concurrentqueue.h:2463-2467 | the slot written is in a block the producer holds, and no other element changes |
| SequentialView.OtherKept | src/concurrentqueue.h:2406-2793 | a producer's step that leaves the blocks of others in use and unchanged keeps every other producer of the pool as it was, and apart |
| ImplicitProducers.ImplicitProducer.CopyRing | src/concurrentqueue.h:2893-2905 | the copying loop ends after one turn of the ring and yields it unrolled from its oldest slot, with as many new entries |
| ImplicitProducers.ImplicitProducer.InsertBlockIndexEntry | src/concurrentqueue.h:2814-2842 | takes the slot after the tail for the new key, in a grown ring if the old one is full, disturbing no block in use; fails, and leaves everything as it was, if and only if the ring is full and may not or cannot grow |
| ImplicitProducers.ImplicitProducer.GetBlockIndexIndexForIndex | src/concurrentqueue.h:2857-2873 | returns the slot of the block of the index; the assert on the tail's key holds, and for a live block so does the one on the key and value found |
| ImplicitProducers.ImplicitProducer.NewBlock | src/concurrentqueue.h:2414-2459 | a new block is had if and only if fewer than 2^63 indices are in use and it can be had without allocating, or allocation is allowed and not refused; malloc is never called without need, and with one block had there is exactly one less to be had |
| ImplicitProducers.ImplicitProducer.Enqueue | src/concurrentqueue.h:2406-2468 | appends the element at the back on true and changes no contents, tail or block in use on false; true if and only if the tail block has room, or fewer than 2^63 indices are in use and a ring slot and a block are there, or memory for them is granted |
| ImplicitProducers.ImplicitProducer.Dequeue | src/concurrentqueue.h:2470-2540 | pops the front; fails if and only if the queue is empty |
| ImplicitProducers.ImplicitProducer.EnqueueBulk | src/concurrentqueue.h:2542-2690 | all of the elements in order or none: all of them if and only if the window, the ring and the pools hold all the blocks they need, or memory is granted; on failure tail, tail block, index values and live blocks are restored and exactly the blocks taken are free again |
| ImplicitProducers.ImplicitProducer.ReserveBlocks | src/concurrentqueue.h:2554-2616 | the blocks needed, each in the index and chained, or none of them; all of them whenever that many can be had |
| ImplicitProducers.ImplicitProducer.UndoBlocks | src/concurrentqueue.h:2584-2592 | exactly the blocks taken leave the index and go to the free list |
| ImplicitProducers.ImplicitProducer.WriteItems | src/concurrentqueue.h:2618-2688 | writing block by block along the links appends the items in order, and ends in the last block |
| ImplicitProducers.ImplicitProducer.DequeueBulk | src/concurrentqueue.h:2692-2793 | takes the first min(max, size) elements in order |
| ProducerRuns.FirstInFirstOut | src/concurrentqueue.h:2406-2793 | over any sequence of single and bulk calls, what was there and what was accepted comes out in that order, and the rest is still there |
| ProducerRuns.MakeCalls | src/concurrentqueue.h:2406-2793 | any calls on a producer, with allocations failing at any time, are such a run |
| ProducerRuns.FillNew | src/concurrentqueue.h:2406-2468 | a new producer on a new pool of n blocks, n at most 32, accepts BLOCK_SIZE * n elements without allocating, and holds them in order |
| TryDequeue.ConcurrentQueue.AddProducer | src/concurrentqueue.h:3157-3170 | a new producer comes first in the list, empty, and shares no block with the others |
| TryDequeue.ConcurrentQueue.CallOn | src/concurrentqueue.h:2406-2793 | any call on one producer is a FIFO step of it and leaves every other producer valid with the same elements, though blocks pass between them through the pool |
| TryDequeue.ConcurrentQueue.PickBest | src/concurrentqueue.h:1043-1059 | the scoring loop picks the first of the largest among the producers up to the third non-empty one |
| TryDequeue.ConcurrentQueue.DequeueFrom | src/concurrentqueue.h:1064-1071 | an attempt takes the element at the head it finds; it fails if and only if the producer is empty at that moment or the attempt loses its ticket |
| TryDequeue.ConcurrentQueue.TryDequeue | src/concurrentqueue.h:1041-1072 | a call takes exactly the element it returns, from the head of one producer, whatever calls other threads make before each access; one that fails though some producer looked non-empty has tried them all; on a quiet queue it fails if and only if every producer is empty, and else takes the oldest element of the one the heuristic picks |
| ProducerHash.StepInv | src/concurrentqueue.h:3293-3441 | every step of every thread keeps: keys lie on their probe paths, once per table, with tickets below three quarters of it, and values belong to their ids |
| ProducerHash.SameThreadSameProducer | src/concurrentqueue.h:3293-3441 | over any run, across resizes and lazy copies, two calls return the same producer if and only if the same thread made them |
| ProducerHash.AlwaysRoom | src/concurrentqueue.h:3293-3441 | every table has an empty slot in every reachable state (distinct tickets below three quarters of it, and the pigeonhole principle) |
| ProducerHash.ProbesEnd | src/concurrentqueue.h:3316-3429 | no probe loop ever looks at more slots than its table has, so all three end |
| ProducerHash.NewCapacity | src/concurrentqueue.h:3366-3369 | doubling ends with the count below half of the new capacity, and goes no further |
| ProducerHashProgress.AloneReturns | src/concurrentqueue.h:3293-3441 | from every reachable state a call that is not blocked returns a producer, if its thread runs alone: the resize loop ends too |
| ProducerHashProgress.ReturnsUnlessBlocked | src/concurrentqueue.h:3357-3440 | a thread in the resize loop, running alone, returns if and only if the resize flag is not held by another thread or its ticket is below three quarters of the newest table |
| ProducerHashProgress.AloneSized | src/concurrentqueue.h:3357-3397 | with the flag free, a call running alone adds its key only when the newest table is more than twice as large as its ticket |
| ProducerHashProgress.ReturnsInMain | src/concurrentqueue.h:3320-3347 | a call that returns leaves its id in the table it took as the main one, if need be by the lazy copy |
| ProducerHashProgress.CountIsExact | src/concurrentqueue.h:3357 | every number up to the count is the ticket of a thread |
| ProducerHashProgress.SpaceBound | src/concurrentqueue.h:3364-3386 | in every reachable state a quarter of the slots of any table but the first is at most the number of threads that have added themselves |
| Shabal.StepsInverse | src/mshabal_sse4.c:77-143 | the 48 in-place PP steps are undone, in both directions, by an explicit inverse |
| Shabal.AddCsSum | src/mshabal_sse4.c:145-180 | the 36 sequential additions add three C words to each A word |
| Shabal.CompressIsBijective | src/mshabal_sse4.c:67-211 | for a fixed block and counter, compression is a bijection on the 44 state words |
| Shabal.PreviousNext | src/mshabal_sse4.c:356-360 | stepping the counter back with borrow undoes stepping it with carry |
| ShabalHash.AbsorbConcat | src/mshabal_sse4.c:58-213 | absorbing two runs of blocks is absorbing their concatenation |
| ShabalHash.AbsorbCounts | src/mshabal_sse4.c:210-211 | W is 1 plus the number of blocks absorbed |
| ShabalHash.PadBytesAgree | src/shabal64.s:1669-1674 | the assembly masks after setting the bit, the C code before: the padding byte is the same |
| ShabalHash.PadLayout | src/mshabal_sse4.c:345-350 | from the top, the padding byte is the n extra bits, a one, and zeros |
| ShabalHash.PaddingUnambiguous | src/mshabal_sse4.c:338-355 | a padded block tells the bytes it ends with, how many extra bits there are, and which |
| ShabalLanes.LaneStep | src/mshabal_sse4.c:77-92 | one PP macro on vectors is one scalar step on each lane |
| ShabalLanes.CompressVectors | src/mshabal_sse4.c:35-223 | a vector compression is, on each lane, the scalar compression of that lane alone |
| ShabalContext.LaneContext.constructor | src/mshabal_sse4.c:226-262 | after the two initial blocks every lane is the empty message's context, with W = 1 |
| ShabalContext.LaneContext.Update | src/mshabal256_avx2.c:306-375 | however the data is cut into chunks, each lane's context afterwards is that of its own concatenated data |
| ShabalContext.LaneContext.UpdateSome | src/mshabal_sse4.c:264-336 | a lane given no data loses only its own message; all lanes absent leaves everything as it was |
| ShabalContext.LaneContext.CompressMany | src/mshabal_sse4.c:58-213 | the block loop absorbs all blocks of every lane, with one counter |
| ShabalContext.LaneContext.Finalise | src/mshabal_sse4.c:356-360 | the final block is compressed four times under the same W |
| ShabalContext.LaneContext.Close | src/mshabal_sse4.c:338-395 | lane k's output is the hash of lane k's data alone, at both widths |
| ShabalUnrolled.UnrolledStep | src/shabal64.s:130-1128 | a step on the unrolled B array, in the order of the instructions, is a step on the circular one |
| ShabalUnrolled.Regroup | src/shabal64.s:1145-1170 | the regrouped vector sums are the sequential ones |
| ShabalUnrolled.SplitNext | src/shabal64.s:1183-1184 | incrementing the 64-bit W is incrementing the pair of words with carry |
| ShabalUnrolled.ZerosCover | src/shabal64.s:1676-1687 | clearing quadwords covers the rest of the buffer and at most the eight bytes after it |
| ShabalUnrolled.AsmContext.PadBuffer | src/shabal64.s:1669-1687 | the clearing loop makes the buffer the padded block; what it overwrites beyond is the ptr field |
| ShabalUnrolled.AsmContext.Rounds | src/shabal64.s:130-1128 | the 48 unrolled steps, with each store of a B word delayed by one step, end with C's new words in Bx[48..63] |
| ShabalUnrolled.AsmContext.AddVectors | src/shabal64.s:1145-1170 | the four-vector additions are the 36 sequential ones |
| ShabalUnrolled.AsmContext.InnerBlock | src/shabal64.s:76-1189 | one round of the loop is the compression of the block under the split W |
| ShabalUnrolled.AsmContext.Update | src/shabal64.s:1533-1634 | the context afterwards is that of the concatenated message |
| ShabalUnrolled.AsmContext.Close | src/shabal64.s:1645-1729 | the output is the same hash as the SIMD forms' |
| InitialState.CertifiedCompression | src/mshabal_sse4.c:58-213 | a trace of the words computed on the way that follows the steps certifies the result of a whole compression |
| InitialState.TableIsInitialState | src/shabal64.s:1331-1342 | the precomputed 44 words for 256 bits are what the two initial blocks of the other implementations lead to |
| BurstMath.SwappedTwice | src/burstmath.c:284-295 | the PoC2 swap of second halves of scoops s and 4095 - s is an involution |
| BurstMath.SwappedScoop | src/burstmath.c:284-289 | what the code reads for PoC2 is scoop s of the swapped plot, in range for every scoop |
| BurstMath.VersionsAgree | src/burstmath.c:279-295 | on a given plot PoC1 and PoC2 read the same bytes for a scoop if and only if its second half and its mirror image's coincide |
| BurstMath.VersionsDiffer | src/burstmath.c:279-295 | for every scoop there is a plot on which they do not |
| BurstMath.CalculateScoop | src/burstmath.c:35-48 | the scoop number is below 4096, and is the last twelve bits of the hash of signature and height |
| BurstMath.BigEndianIs | src/burstmath.c:24-43 | account, nonce and height are stored with their most significant byte first |
| BurstMath.TargetIs | src/burstmath.c:301-304 | the 64-bit load reads the first eight bytes the hash is stored as, the first the least significant |
| BurstMath.DeadlineIs | src/burstmath.c:279-309 | a deadline is how often the base target goes into the first eight bytes of the hash of generation signature and scoop, the scoop being that of the plot for PoC1 and of the swapped plot for PoC2 |
| BurstMath.ChainSse4 | src/burstmath.c:243-252 | the backwards in-place chain reads only bytes already written, and fills the buffer with the chain of the seed, whatever was in it |
| BurstMath.ChainAvx2 | src/burstmath.c:100-115 | the loop that only tests for non-zero ends at exactly zero, with the same chain |
| BurstMath.XorFinal | src/burstmath.c:254-264 | the in-place XOR of the final hash makes every lane's buffer that lane's plot |
| BurstMath.CalculateDeadlinesSse4 | src/burstmath.c:210-311 | every request with a scoop below 4096 gets its own deadline, by PoC2 exactly if asked, whatever the other lanes - scoop numbers out of range included - and the old buffer contents |
| BurstMath.CalculateDeadlinesAvx2 | src/burstmath.c:52-206 | the same for eight lanes |
| DeadlineRequests.Distributor.Round | src/DeadlineRequestHandler.cpp:96-112 | a batch is posted exactly when it is full or has waited, the request found goes into the next entry, and none is lost, repeated or overtaken |
| DeadlineRequests.Distributor.Run | src/DeadlineRequestHandler.cpp:86-113 | over every run of hits and misses the live entries of the posted batches, then the collected ones, are the requests found, in order, in batches of 1 to PARALLEL_VALIDATIONS (four or eight) |
| DeadlineRequests.PostedIsReady | src/DeadlineRequestHandler.cpp:86-113 | every batch posted, partly filled first ones included, can be validated, if the requests found are proper ones; of the padding's scoop number nothing is asked |
| DeadlineRequests.BatchDeadlines | src/DeadlineRequestHandler.cpp:39-58 | if the first request is at or past the PoC2 height every live entry gets the PoC2 deadline of its own request, and below it the PoC1 deadline; stale and padding lanes do not matter, and in a one-sided batch each gets its own |
| DeadlineRequests.BatchingIsRight | src/DeadlineRequestHandler.cpp:39-58 | every live entry's deadline is computed from the bytes its own height asks for, on all plots, if and only if the live requests lie on one side of the PoC2 height |
| DeadlineRequests.ReadsOwnWhen | src/DeadlineRequestHandler.cpp:39-58 | plot by plot: an entry is computed from its own bytes if and only if it is on the first one's side or the two halves in question coincide |
| DeadlineRequests.OwnBytesOwnDeadline | src/DeadlineRequestHandler.cpp:39-58 | an entry computed from its own bytes gets the deadline it would get alone |
| DeadlineRequests.StraddlingRun | src/DeadlineRequestHandler.cpp:39-113 | the loop posts a batch that straddles the height, and on a given plot its second request is computed from the wrong bytes |
| MinerRounds.RoundSubmissions | src/DeadlineRequestHandler.cpp:62-84 | in every interleaving of validators and resets, the submissions of a round strictly decrease, stay within the limit and carry its height, and outside the lock the recorded deadline is the least submitted or 2^64 - 1 |
| MinerRounds.OneHolder | src/Wallet.cpp:153-158 | at most one thread is past the lock |
| MinerRounds.BetterIsSubmitted | src/DeadlineRequestHandler.cpp:69-80 | a validation that holds the lock and finds its height and a worse deadline submits, whatever other threads do before it gets to |
| MinerRounds.SubmitsWhen | src/DeadlineRequestHandler.cpp:62-80 | a whole call submits, at its third step, if and only if the deadline is within the limit, the lock is free and the try does not fail, and the check finds the height and a worse deadline |
| MinerRounds.ResetStarts | src/Wallet.cpp:153-158 | a reset that has the lock leaves a new round of its height, without a deadline |
| MinerRounds.CallsEnd | src/DeadlineRequestHandler.cpp:62-84 | every step of its own brings a call nearer to its end and nobody else moves it; ended, it does not hold the lock |
| RateLimiter.StepInv | src/RateLimiter.hpp:16-30 | every step of every thread keeps: a bucket's zero time is that of its grants taken one by one, each allowed at its turn |
| RateLimiter.WindowBound | src/RateLimiter.hpp:16-62 | in any interleaving, with clock readings out of order and spurious failures, the grants for a key with reading in [t1, t2] number at most 1 + burst + rate * (t2 - t1) |
| RateLimiter.NextZeroIs | src/RateLimiter.hpp:20-27 | a grant moves the zero time up by one period, to no earlier than a full bucket and no later than the clock |
| RateLimiter.DeniedWhenEmpty | src/RateLimiter.hpp:16-30 | in every interleaving a request is denied if and only if the bucket as it last read it had no token for it, and else goes on to take one |
| RateLimiter.RetriesAfterGrant | src/RateLimiter.hpp:17-29 | a swap grants the request, or the loop goes round only for a spurious failure or because another request was granted since |
| RateLimiter.LoneRequest | src/RateLimiter.hpp:16-62 | alone, a request is decided by the bucket it finds |
| RateLimiter.RunRefinesTextbook | src/RateLimiter.hpp:16-30 | on every series of requests whose clock does not go back, the one-number bucket makes the decisions of the bucket with a level and a time, and still represents it afterwards |
| RateLimiter.TokenBucket.Aquire | src/RateLimiter.hpp:16-30 | the compare-exchange loop with any number of spurious failures grants and moves exactly once |
| RateLimiter.Limiter.Aquire | src/RateLimiter.hpp:50-62 | a key's first request is granted and only makes its bucket; no request moves another key's bucket |

## Left out

- C++11 memory orders and fences: interleaving is sequentially consistent.
- Explicit producers, tokens and rotation, the recycling of producers at thread exit (its macro is off), queue move and swap, exceptions of element constructors: the program does not use them.
- Destructors: not part of this model.
- Failure to allocate a producer hash table, a producer, or a producer's first ring: taken to succeed. Block and ring allocation may fail at any time.
- The push of a new producer onto the producer list (src/concurrentqueue.h:3166-3170): making a producer is one step of `ProducerHash`. In `ConcurrentProducers` all producers are there from the start.
- Free-list operations inside `ConcurrentProducers` are one step each, and `try_get` may fail at any time; a dequeuer enters with its claim. In `QueueProduct` they are the steps of `FreeList` and `DequeueCounters`, but a dequeuer that gives a block back may go on before its add has returned, which allows more interleavings than the code.
- Bulk enqueue under interleaving: `ConcurrentProducers` has single enqueues, which are all the server makes, and bulk dequeues; `ImplicitProducer.EnqueueBulk` is sequential.
- DequeueCounters.StepInv: asks that no dequeuer sleeps between loading the overcommit count and comparing with it while the counters move by 2^63 (`Timely`), the assumption behind a 64-bit index; `DequeueCounters.ShortRunsAreTimely` says which runs meet it anyway.
- FreeList.StepInv: asks for fewer than 2^31 threads, so that a reference count never reaches the flag bit.
- BlockIndexInvariant.CapacityFits: rings are taken to stop doubling at 2^59 slots, which no 64-bit address space can exceed.
- ImplicitProducers.ImplicitProducer.DequeueBulk: for max = 0 on a queue that is not empty the code goes round its loop once over no elements; the model skips that round.
- TryDequeue.ConcurrentQueue.TryDequeue: other threads make whole calls before each access, and a dequeue may lose its ticket; accesses within a call are not interleaved there, and no producer is added during the call. It is exact only when no other call is in progress.
- Blocks are numbers with a storage map and index entries are numbered values: address arithmetic, alignment and placement construction are not modelled.
- SIMD loads and stores, alignment, registers and the stack: a vector is a sequence of words, and the state is rows of words instead of one flat array. Of the table of initial states in src/shabal64.s only the entry for 256 bits, the one the server uses, is checked.
- The extra bits `ub` of a close are one byte.
- BurstMath.CalculateDeadlinesSse4: asks for a positive base target in every lane. The padding requests of src/DeadlineRequestHandler.cpp:87-92 leave scoop_nr unset; for a scoop number out of range the copy from beyond the buffer is taken to yield some bytes.
- Rounding of doubles: the rate limiter computes with reals.
- The lock of the rate limiter lets one caller in at a time; its transition system allows more interleavings than that.
- MinerRounds.RoundSubmissions: speaks of one round object; src/Wallet.cpp:142-162 may replace an account's object by a fresh one.
- Wallet, Session, Server, Config and NodeComClient beyond the reset of a round; generated protobuf code; any claim about cryptographic strength.
