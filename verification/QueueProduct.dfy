module QueueProduct {
  /* The queue's three machines run as one (src/concurrentqueue.h): the free list, the counters of each
     producer, and the producers with their blocks.

     Each machine has guards that are the business of another: a dequeuer's claim must be published, a
     block that try_get returns must be on the free list, a block given to add must not be, and so on.
     A step of the product asks only for what its own thread can see.  That the guards hold is proved. */

  import opened CircularArithmetic
  import opened Options
  import FL = FreeList
  import DC = DequeueCounters
  import CP = ConcurrentProducers
  import BI = BlockIndex
  import PI = ProducersInvariant
  import PS = ProducersSafety
  import BR = BlockRecycling

  type Pid = CP.Pid
  type Thread = CP.Thread
  type Block = BI.Block

  datatype State = State(fl: FL.State, dc: map<Pid, DC.State>, cp: CP.State)

  datatype Action =
    | FreeListAlone(f: FL.Action)                          // try_get is called; any access of add or try_get
    | CountersAlone(pid: Pid, c: DC.Action)                // a dequeue is called; any access up to its claim
    | ProducersAlone(p: CP.Action)                         // accesses that concern no other machine
    | Claim(pid: Pid, thread: Thread)                      // fetch_add on headIndex: the dequeuer has its indices
    | TestRoom(pid: Pid)                                   // the fullness test
    | Fail(pid: Pid, got: Option<Block>)                   // no room in the index, or no block
    | Publish(pid: Pid)
    | FromPool(pid: Pid)                                   // a block comes from the initial pool
    | Malloc(pid: Pid, block: Block)
    | Get(pid: Pid, on: FL.Thread)                         // try_get returns a block
    | Give(pid: Pid, thread: Thread, on: FL.Thread)        // add is called with an emptied block

  /** The action's part in each machine. */
  datatype Parts = Parts(f: Option<FL.Action>, c: Option<(Pid, DC.Action)>, p: Option<CP.Action>)

  ghost predicate HasProducer(s: State, pid: Pid) { pid in s.cp.prods && pid in s.dc }

  /** What the thread taking the step can see. */
  ghost predicate Guard(s: State, a: Action) {
    match a
    case FreeListAlone(f) =>
      match f {
        case CallTryGet(t) => t in s.fl.pcs && s.fl.pcs[t] == FL.Idle
        case Run(t) => t in s.fl.pcs && s.fl.pcs[t] != FL.Idle && !s.fl.pcs[t].GetDropTwo?
        case _ => false
      }
    case CountersAlone(pid, c) =>
      HasProducer(s, pid) &&
      match c {
        case Call(t, most) => t in s.dc[pid].pcs && s.dc[pid].pcs[t] == DC.Idle && most > 0
                              && t in s.cp.prods[pid].deqs && s.cp.prods[pid].deqs[t] == CP.DIdle
        case Run(t) => t in s.dc[pid].pcs && s.dc[pid].pcs[t] != DC.Idle && !s.dc[pid].pcs[t].Claim?
        case _ => false
      }
    case ProducersAlone(p) =>
      HasProducer(s, p.pid) &&
      match p {
        case CallEnqueue(pid, _) => s.cp.prods[pid].enq == CP.EIdle
        case RunEnqueuer(pid, got) =>
          && LoneAccess(s.cp.prods[pid].enq, s.cp.world, got)
          && (got.Some? ==> s.cp.prods[pid].enq.EGrow? && Grows(s.cp.prods[pid]))
        case RunDequeuer(pid, t) =>
          t in s.cp.prods[pid].deqs && s.cp.prods[pid].deqs[t] != CP.DIdle && !s.cp.prods[pid].deqs[t].DFree?
        case _ => false
      }
    case Claim(pid, t) => HasProducer(s, pid) && t in s.dc[pid].pcs && s.dc[pid].pcs[t].Claim?
    case TestRoom(pid) => HasProducer(s, pid) && s.cp.prods[pid].enq.ETestRoom?
    case Fail(pid, got) => HasProducer(s, pid) && ((s.cp.prods[pid].enq.EClear? && got == None)
                                                   || (s.cp.prods[pid].enq.EGrow? && (got == None || !Grows(s.cp.prods[pid]))))
    case Publish(pid) => HasProducer(s, pid) && s.cp.prods[pid].enq.EPublish?
    case FromPool(pid) => HasProducer(s, pid) && s.cp.prods[pid].enq.EPoolTake? && s.cp.world.pool.next < s.cp.world.pool.size
    case Malloc(pid, b) => HasProducer(s, pid) && s.cp.prods[pid].enq.EAllocate? && b !in s.cp.world.pool.blocks
    case Get(pid, t) => HasProducer(s, pid) && s.cp.prods[pid].enq.EFreeTake? && t in s.fl.pcs && s.fl.pcs[t].GetDropTwo?
    case Give(pid, t, f) => HasProducer(s, pid) && t in s.cp.prods[pid].deqs && s.cp.prods[pid].deqs[t].DFree?
                            && f in s.fl.pcs && s.fl.pcs[f] == FL.Idle
  }

  ghost predicate Grows(p: CP.Producer) { |p.index.headers| > 0 && BI.Current(p.index) < BI.LAST_HEADER }

  /** Accesses of an enqueuer in which no other machine has a part. */
  predicate LoneAccess(e: CP.Enq, w: CP.World, got: Option<Block>) {
    match e
    case EIdle => false
    case ETestRoom(_) => false
    case EClear(_) => false
    case EPublish(_) => false
    case EGrow(_) => got.Some?
    case EPoolTake(_) => got.None? && w.pool.next >= w.pool.size
    case _ => got.None?
  }

  /** The fullness test. */
  predicate Passes(p: CP.Producer) { CircularLess(W(p.head), W(p.tail + BLOCK_SIZE)) }

  ghost function PartsOf(s: State, a: Action): Parts
    requires Guard(s, a)
  {
    match a
    case FreeListAlone(f) => Parts(Some(f), None, None)
    case CountersAlone(pid, c) => Parts(None, Some((pid, c)), None)
    case ProducersAlone(p) => Parts(None, None, Some(p))
    case Claim(pid, t) => Parts(None, Some((pid, DC.Run(t))), Some(CP.CallDequeue(pid, t, s.dc[pid].pcs[t].won)))
    case TestRoom(pid) =>
      Parts(None, if Passes(s.cp.prods[pid]) then Some((pid, DC.Reserve)) else None, Some(CP.RunEnqueuer(pid, None)))
    case Fail(pid, got) => Parts(None, Some((pid, DC.Unreserve)), Some(CP.RunEnqueuer(pid, got)))
    case Publish(pid) => Parts(None, Some((pid, DC.Publish(s.dc[pid].tail + 1))), Some(CP.RunEnqueuer(pid, None)))
    case FromPool(pid) => Parts(Some(FL.NewNode(s.cp.world.pool.next)), None, Some(CP.RunEnqueuer(pid, None)))
    case Malloc(pid, b) => Parts(Some(FL.NewNode(b)), None, Some(CP.RunEnqueuer(pid, Some(b))))
    case Get(pid, t) => Parts(Some(FL.Run(t)), None, Some(CP.RunEnqueuer(pid, Some(s.fl.pcs[t].node))))
    case Give(pid, t, f) => Parts(Some(FL.CallAdd(f, s.cp.prods[pid].deqs[t].block)), None, Some(CP.RunDequeuer(pid, t)))
  }

  /** Every part is a step that its machine allows. */
  ghost predicate Fits(s: State, q: Parts) {
    && (q.f.Some? ==> FL.WellFormed(s.fl) && FL.Enabled(s.fl, q.f.value))
    && (q.c.Some? ==> q.c.value.0 in s.dc && DC.Enabled(s.dc[q.c.value.0], q.c.value.1))
    && (q.p.Some? ==> CP.Enabled(s.cp, q.p.value) && CP.Defined(s.cp, q.p.value))
  }

  ghost function Apply(s: State, q: Parts): State
    requires Fits(s, q)
  {
    State(if q.f.Some? then FL.Apply(s.fl, q.f.value) else s.fl,
          if q.c.Some? then s.dc[q.c.value.0 := DC.Apply(s.dc[q.c.value.0], q.c.value.1)] else s.dc,
          if q.p.Some? then CP.Apply(s.cp, q.p.value) else s.cp)
  }

  // ----- What holds the machines together -----

  /** The enqueuer has passed the fullness test for a block, and not yet used or given up the room. */
  predicate HasRoom(e: CP.Enq, tail: nat) {
    if e.EIdle? || e.ETestRoom? then false else if e.EWrite? || e.EPublish? then tail % BLOCK_SIZE == 0 else true
  }

  /** One producer's indices, counted twice. */
  ghost predicate SameCounts(c: DC.State, p: CP.Producer) {
    && c.head == p.head && c.tail == p.tail
    && c.reserved == (if HasRoom(p.enq, p.tail) then p.tail + BLOCK_SIZE else DC.BlockEnd(p.tail))
    && (!p.enq.EIdle? && !p.enq.EWrite? && !p.enq.EPublish? ==> p.tail % BLOCK_SIZE == 0)
    && forall t <- c.pcs {:trigger c.pcs[t]} | c.pcs[t] != DC.Idle :: t in p.deqs && p.deqs[t] == CP.DIdle
  }

  /** A block that has left the initial pool is a node of the free list's machine, and in a client's
      hands there exactly when some producer has it here. */
  ghost predicate SameBlock(f: FL.State, w: CP.World, b: Block) {
    && (b in f.refs <==> b in w.place && w.place[b] != CP.InPool)
    && (b in f.client <==> b in w.place && (w.place[b].Carried? || w.place[b].Home?))
  }

  ghost predicate Glue(s: State) {
    && s.dc.Keys == s.cp.prods.Keys
    && (forall pid <- s.dc {:trigger s.dc[pid]} :: SameCounts(s.dc[pid], s.cp.prods[pid]))
    && (forall b: Block {:trigger SameBlock(s.fl, s.cp.world, b)} :: SameBlock(s.fl, s.cp.world, b))
  }

  // ----- Guards -----

  ghost predicate AllInv(s: State) {
    FL.Good(s.fl) && PI.Inv(s.cp) && forall pid <- s.dc {:trigger s.dc[pid]} :: DC.Inv(s.dc[pid])
  }

  /** A claim is of published indices. */
  lemma ClaimFits(c: DC.State, t: Thread)
    requires DC.Inv(c) && t in c.pcs && c.pcs[t].Claim?
    ensures c.pcs[t].won > 0 && c.head + c.pcs[t].won <= c.tail
  {
    assert DC.PcOk(c, t, c.pcs[t]);
    DC.RunClaim(c, t);
    var c' := DC.Advance(c, t);
    DC.CountSplit(c'.tickets, c'.opt);
    DC.WinsBounded(c'.tickets, c'.tail, c'.opt);
  }

  /** The node that try_get is about to return is with no client. */
  lemma TakenIsFree(f: FL.State, t: FL.Thread)
    requires FL.Good(f) && t in f.pcs && f.pcs[t].GetDropTwo?
    ensures FL.WellFormed(f) && f.pcs[t].node in f.refs && f.pcs[t].node !in f.client
  {
    var list, at :| FL.Inv(f, list, at);
    FL.BeforeRun(f, list, at, t);
    assert FL.PlaceAgrees(f.pcs[t], t, f.pcs[t].node, at[f.pcs[t].node]);
  }

  lemma IsWellFormed(f: FL.State)
    requires FL.Good(f)
    ensures FL.WellFormed(f)
  {
    var list, at :| FL.Inv(f, list, at);
  }

  /** Where the producers' invariant says a block is. */
  lemma PlaceOf(s: CP.State, b: Block)
    requires PI.Inv(s)
    ensures b in s.world.place <==> b in s.world.pool.blocks
    ensures b in s.world.place ==> (s.world.place[b] == CP.InPool <==> s.world.pool.next <= b < s.world.pool.size)
    ensures b in s.world.place ==> (s.world.place[b] == CP.Free <==> b in s.world.pool.free)
    ensures b in s.world.pool.free ==> b in s.world.pool.blocks
    ensures b < s.world.pool.size ==> b in s.world.pool.blocks
  {
    hide PI.LocalOk;
    if b in s.world.pool.blocks { assert PI.BlockShape(s.world, b); }
  }

  /** The block a dequeuer gives back is its producer's. */
  lemma GivenIsHome(s: CP.State, pid: Pid, t: Thread)
    requires PI.Inv(s) && pid in s.prods && t in s.prods[pid].deqs && s.prods[pid].deqs[t].DFree?
    ensures var b := s.prods[pid].deqs[t].block; b in s.world.place && s.world.place[b].Home?
  {
    assert PI.LocalOk(pid, s.prods[pid], s.world);
    BR.SpentBlockIs(pid, s.prods[pid], s.world, t);
  }

  lemma FreeListFits(s: State, a: Action)
    requires Glue(s) && AllInv(s) && Guard(s, a) && PartsOf(s, a).f.Some?
    ensures FL.WellFormed(s.fl) && FL.Enabled(s.fl, PartsOf(s, a).f.value)
  {
    hide PI.Inv, DC.Inv, FL.Good, FL.WellFormed, SameCounts, Grows;
    IsWellFormed(s.fl);
    match a
    case FreeListAlone(_) =>
    case Get(_, _) =>
    case FromPool(_) =>
      var b := s.cp.world.pool.next;
      PlaceOf(s.cp, b);
      assert SameBlock(s.fl, s.cp.world, b);
    case Malloc(_, b) =>
      PlaceOf(s.cp, b);
      assert SameBlock(s.fl, s.cp.world, b);
    case Give(pid, t, _) =>
      GivenIsHome(s.cp, pid, t);
      assert SameBlock(s.fl, s.cp.world, s.cp.prods[pid].deqs[t].block);
  }

  lemma CountersFit(s: State, a: Action)
    requires Glue(s) && AllInv(s) && Guard(s, a) && PartsOf(s, a).c.Some?
    ensures var (pid, c) := PartsOf(s, a).c.value; pid in s.dc && DC.Enabled(s.dc[pid], c)
  {
    hide PI.Inv, FL.Good, FL.WellFormed, DC.Inv, Grows;
    var pid := a.pid;
    assert SameCounts(s.dc[pid], s.cp.prods[pid]);
    Rounded(s.dc[pid].tail);
  }

  lemma Rounded(x: nat)
    ensures x % BLOCK_SIZE == 0 ==> DC.BlockEnd(x) == x && DC.BlockEnd(x + 1) == x + BLOCK_SIZE
    ensures x % BLOCK_SIZE != 0 ==> DC.BlockEnd(x) > x && DC.BlockEnd(x + 1) == DC.BlockEnd(x)
  {
  }

  lemma ProducersEnabled(s: State, a: Action)
    requires Glue(s) && AllInv(s) && Guard(s, a) && PartsOf(s, a).p.Some?
    ensures CP.Enabled(s.cp, PartsOf(s, a).p.value)
  {
    hide PI.Inv, FL.Good, FL.WellFormed, DC.Inv, Grows;
    if a.Claim? {
      assert SameCounts(s.dc[a.pid], s.cp.prods[a.pid]);
      ClaimFits(s.dc[a.pid], a.thread);
    } else if a.Get? {
      var b := s.fl.pcs[a.on].node;
      TakenIsFree(s.fl, a.on);
      PlaceOf(s.cp, b);
      assert SameBlock(s.fl, s.cp.world, b);
    } else {
      hide SameCounts, SameBlock;
    }
  }

  lemma ProducersFit(s: State, a: Action)
    requires Glue(s) && AllInv(s) && Guard(s, a) && PartsOf(s, a).p.Some?
    ensures CP.Enabled(s.cp, PartsOf(s, a).p.value) && CP.Defined(s.cp, PartsOf(s, a).p.value)
  {
    ProducersEnabled(s, a);
    hide Guard, PartsOf, Glue, PI.Inv, FL.Good, DC.Inv, CP.Enabled, CP.Defined;
    PS.StepInv(s.cp, PartsOf(s, a).p.value);
  }

  /** No guard of one machine is ever refused by another: what a thread can see is enough. */
  lemma GuardFits(s: State, a: Action)
    requires Glue(s) && AllInv(s) && Guard(s, a)
    ensures Fits(s, PartsOf(s, a))
  {
    hide Guard, PartsOf, Glue, AllInv;
    if PartsOf(s, a).f.Some? { FreeListFits(s, a); }
    if PartsOf(s, a).c.Some? { CountersFit(s, a); }
    if PartsOf(s, a).p.Some? { ProducersFit(s, a); }
  }

  // ----- Glue -----

  lemma OthersSame(s: State, s': State, pid: Pid)
    requires Glue(s) && pid in s.dc && pid in s'.dc && pid in s'.cp.prods
    requires s'.dc == s.dc[pid := s'.dc[pid]] && s'.cp.prods == s.cp.prods[pid := s'.cp.prods[pid]]
    requires SameCounts(s'.dc[pid], s'.cp.prods[pid])
    requires forall b: Block {:trigger SameBlock(s'.fl, s'.cp.world, b)} :: SameBlock(s'.fl, s'.cp.world, b)
    ensures Glue(s')
  {
    hide SameCounts, SameBlock;
    forall q <- s'.dc ensures SameCounts(s'.dc[q], s'.cp.prods[q]) {
      if q != pid { assert SameCounts(s.dc[q], s.cp.prods[q]); }
    }
  }

  /** Nothing of the free list, and no place, has changed, but from one producer's place to another. */
  lemma BlocksStay(s: State, f: FL.State, w: CP.World)
    requires Glue(s) && f.refs.Keys == s.fl.refs.Keys && f.client == s.fl.client && w.place.Keys == s.cp.world.place.Keys
    requires forall b <- w.place :: w.place[b] == s.cp.world.place[b]
               || ((w.place[b].Carried? || w.place[b].Home?) && (s.cp.world.place[b].Carried? || s.cp.world.place[b].Home?))
    ensures forall b: Block {:trigger SameBlock(f, w, b)} :: SameBlock(f, w, b)
  {
    hide SameCounts;
    forall b: Block ensures SameBlock(f, w, b) { assert SameBlock(s.fl, s.cp.world, b); }
  }

  /** One block changes hands in both machines. */
  lemma BlockMoves(s: State, f: FL.State, w: CP.World, n: Block, place: CP.Place)
    requires Glue(s) && w.place == s.cp.world.place[n := place] && place != CP.InPool
    requires f.refs.Keys == s.fl.refs.Keys + {n}
    requires f.client == if place == CP.Free then s.fl.client - {n} else s.fl.client + {n}
    ensures forall b: Block {:trigger SameBlock(f, w, b)} :: SameBlock(f, w, b)
  {
    hide SameCounts;
    forall b: Block ensures SameBlock(f, w, b) { assert SameBlock(s.fl, s.cp.world, b); }
  }

  /** What an enqueuer's access does, where no other machine has a part. */
  lemma LoneEnqueuer(pid: Pid, p: CP.Producer, w: CP.World, got: Option<Block>)
    requires CP.EnqDefined(p, w) && LoneAccess(p.enq, w, got) && (got.Some? ==> p.enq.EGrow? && Grows(p))
    ensures var (p', w') := CP.EnqStep(pid, p, w, got);
            && p'.head == p.head && p'.tail == p.tail && p'.deqs == p.deqs
            && HasRoom(p'.enq, p.tail) == (if p.enq.EStoreValue? then p.tail % BLOCK_SIZE == 0 else HasRoom(p.enq, p.tail))
            && (!p'.enq.EIdle? && !p'.enq.EWrite? && !p'.enq.EPublish? ==> !p.enq.EIdle? && !p.enq.EWrite? && !p.enq.EPublish?)
            && w'.place == if p.enq.EStoreValue? then w.place[p.enq.block := CP.Home(pid, |p.homes|)] else w.place
  {
  }

  /** What a dequeuer's access does, but for giving the block back. */
  lemma LoneDequeuer(p: CP.Producer, w: CP.World, t: Thread)
    requires CP.DeqDefined(p, w, t) && p.deqs[t] != CP.DIdle && !p.deqs[t].DFree?
    ensures var (p', w') := CP.DeqStep(p, w, t);
            && p'.head == p.head && p'.tail == p.tail && p'.enq == p.enq && t in p'.deqs
            && p'.deqs == p.deqs[t := p'.deqs[t]] && w'.place == w.place
  {
  }

  /** The block to be put into the index is the enqueuer's. */
  lemma CarriedBlock(s: CP.State, pid: Pid)
    requires PI.Inv(s) && pid in s.prods && s.prods[pid].enq.EStoreValue?
    ensures var b := s.prods[pid].enq.block; b in s.world.place && s.world.place[b].Carried?
  {
    assert PI.LocalOk(pid, s.prods[pid], s.world);
  }

  lemma FreeListGlue(s: State, a: Action)
    requires Glue(s) && AllInv(s) && Guard(s, a) && a.FreeListAlone? && Fits(s, PartsOf(s, a))
    ensures Glue(Apply(s, PartsOf(s, a)))
  {
    hide PI.Inv, DC.Inv, FL.Good, SameCounts, SameBlock;
    var s' := Apply(s, PartsOf(s, a));
    FreeListAccess(s.fl, a.f);
    forall b: Block ensures SameBlock(s'.fl, s'.cp.world, b) {
      assert SameBlock(s.fl, s.cp.world, b);
      SameRefs(s.fl, s'.fl, s.cp.world, b);
    }
  }

  lemma SameRefs(f: FL.State, f': FL.State, w: CP.World, b: Block)
    requires SameBlock(f, w, b) && f'.refs.Keys == f.refs.Keys && f'.client == f.client
    ensures SameBlock(f', w, b)
  {
  }

  /** An access that hands no node out leaves the nodes and the clients' as they are. */
  lemma FreeListAccess(f: FL.State, a: FL.Action)
    requires FL.WellFormed(f) && FL.Enabled(f, a) && (a.CallTryGet? || (a.Run? && !f.pcs[a.thread].GetDropTwo?))
    ensures FL.Apply(f, a).refs.Keys == f.refs.Keys && FL.Apply(f, a).client == f.client
  {
    if a.Run? && f.pcs[a.thread] != FL.GetLoadHead {
      assert FL.PcKnown(f.refs.Keys, f.pcs[a.thread]);
      var n, e := f.pcs[a.thread].node, FL.ExecAt(f, a.thread);
      assert !e.handsOut && n in f.refs;
      assert FL.Apply(f, a).refs == f.refs[n := e.word];
    }
  }

  lemma CountersGlue(s: State, a: Action)
    requires Glue(s) && AllInv(s) && Guard(s, a) && a.CountersAlone? && Fits(s, PartsOf(s, a))
    ensures Glue(Apply(s, PartsOf(s, a)))
  {
    hide PI.Inv, DC.Inv, FL.Good, SameBlock;
    var s' := Apply(s, PartsOf(s, a));
    assert SameCounts(s.dc[a.pid], s.cp.prods[a.pid]);
    CountersAccess(s.dc[a.pid], a.c);
    OthersSame(s, s', a.pid);
  }

  lemma CountersAccess(c: DC.State, a: DC.Action)
    requires DC.Enabled(c, a) && (a.Call? || (a.Run? && !c.pcs[a.thread].Claim?))
    ensures var c' := DC.Apply(c, a);
            c'.head == c.head && c'.tail == c.tail && c'.reserved == c.reserved && a.thread in c'.pcs
              && c'.pcs == c.pcs[a.thread := c'.pcs[a.thread]]
  {
  }

  lemma ProducersGlue(s: State, a: Action)
    requires Glue(s) && AllInv(s) && Guard(s, a) && a.ProducersAlone? && Fits(s, PartsOf(s, a))
    ensures Glue(Apply(s, PartsOf(s, a)))
  {
    hide PI.Inv, DC.Inv, FL.Good, FL.WellFormed, SameBlock, CP.EnqStep, CP.DeqStep, CP.EnqDefined, CP.DeqDefined,
         Grows, LoneAccess;
    var s', pid := Apply(s, PartsOf(s, a)), a.p.pid;
    var p, w := s.cp.prods[pid], s.cp.world;
    assert SameCounts(s.dc[pid], p);
    match a.p {
      case CallEnqueue(_, _) =>
      case RunEnqueuer(_, got) =>
        LoneEnqueuer(pid, p, w, got);
        if p.enq.EStoreValue? { CarriedBlock(s.cp, pid); }
      case RunDequeuer(_, t) =>
        LoneDequeuer(p, w, t);
    }
    BlocksStay(s, s'.fl, s'.cp.world);
    OthersSame(s, s', pid);
  }

  lemma ClaimGlue(s: State, a: Action)
    requires Glue(s) && AllInv(s) && Guard(s, a) && a.Claim? && Fits(s, PartsOf(s, a))
    ensures Glue(Apply(s, PartsOf(s, a)))
  {
    hide PI.Inv, DC.Inv, FL.Good, FL.WellFormed, SameBlock;
    var s' := Apply(s, PartsOf(s, a));
    assert SameCounts(s.dc[a.pid], s.cp.prods[a.pid]);
    BlocksStay(s, s'.fl, s'.cp.world);
    OthersSame(s, s', a.pid);
  }

  /** The accesses that decide about room, or use it. */
  lemma RoomStep(pid: Pid, p: CP.Producer, w: CP.World, got: Option<Block>)
    requires CP.EnqDefined(p, w)
    requires p.enq.ETestRoom? || p.enq.EPublish? || p.enq.EClear? || (p.enq.EGrow? && (got == None || !Grows(p)))
    ensures var (p', w') := CP.EnqStep(pid, p, w, got);
            && p'.head == p.head && p'.tail == p.tail + (if p.enq.EPublish? then 1 else 0) && p'.deqs == p.deqs && w' == w
            && if p.enq.ETestRoom? && Passes(p) then p'.enq.ELoadKey? else p'.enq.EIdle?
  {
  }

  lemma RoomGlue(s: State, pid: Pid, c: DC.State, p: CP.Producer)
    requires Glue(s) && pid in s.dc && SameCounts(c, p)
    ensures Glue(State(s.fl, s.dc[pid := c], CP.State(s.cp.prods[pid := p], s.cp.world)))
  {
    hide SameBlock, SameCounts;
    OthersSame(s, State(s.fl, s.dc[pid := c], CP.State(s.cp.prods[pid := p], s.cp.world)), pid);
  }

  lemma TestRoomGlue(s: State, a: Action)
    requires Glue(s) && AllInv(s) && Guard(s, a) && a.TestRoom? && Fits(s, PartsOf(s, a))
    ensures Glue(Apply(s, PartsOf(s, a)))
  {
    hide AllInv, SameBlock;
    var pid, p := a.pid, s.cp.prods[a.pid];
    RoomStep(pid, p, s.cp.world, None);
    var (p', w') := CP.EnqStep(pid, p, s.cp.world, None);
    hide CP.EnqStep, CP.EnqDefined, Grows, FL.WellFormed, FL.Enabled;
    assert SameCounts(s.dc[pid], p);
    Rounded(p.tail);
    RoomGlue(s, pid, Apply(s, PartsOf(s, a)).dc[pid], p');
  }
  lemma FailGlue(s: State, a: Action)
    requires Glue(s) && AllInv(s) && Guard(s, a) && a.Fail? && Fits(s, PartsOf(s, a))
    ensures Glue(Apply(s, PartsOf(s, a)))
  {
    hide AllInv, SameBlock;
    var pid, p := a.pid, s.cp.prods[a.pid];
    RoomStep(pid, p, s.cp.world, a.got);
    var (p', w') := CP.EnqStep(pid, p, s.cp.world, a.got);
    hide CP.EnqStep, CP.EnqDefined, Grows, FL.WellFormed, FL.Enabled;
    assert SameCounts(s.dc[pid], p);
    Rounded(p.tail);
    RoomGlue(s, pid, Apply(s, PartsOf(s, a)).dc[pid], p');
  }
  lemma PublishGlue(s: State, a: Action)
    requires Glue(s) && AllInv(s) && Guard(s, a) && a.Publish? && Fits(s, PartsOf(s, a))
    ensures Glue(Apply(s, PartsOf(s, a)))
  {
    hide AllInv, SameBlock;
    var pid, p := a.pid, s.cp.prods[a.pid];
    RoomStep(pid, p, s.cp.world, None);
    var (p', w') := CP.EnqStep(pid, p, s.cp.world, None);
    hide CP.EnqStep, CP.EnqDefined, Grows, FL.WellFormed, FL.Enabled;
    assert SameCounts(s.dc[pid], p);
    Rounded(p.tail);
    RoomGlue(s, pid, Apply(s, PartsOf(s, a)).dc[pid], p');
  }
  lemma HandoverStep(pid: Pid, p: CP.Producer, w: CP.World, got: Option<Block>, b: Block)
    requires CP.EnqDefined(p, w)
    requires if p.enq.EPoolTake? then w.pool.next < w.pool.size && b == w.pool.next
             else (p.enq.EFreeTake? || p.enq.EAllocate?) && got == Some(b)
    ensures var (p', w') := CP.EnqStep(pid, p, w, got);
            && p'.head == p.head && p'.tail == p.tail && p'.deqs == p.deqs && p'.enq.EReset?
               && w'.place == w.place[b := CP.Carried(pid)]
  {
  }

  /** The enqueuer's machine takes block b as a client of the free list's machine does. */
  lemma TakeGlue(s: State, pid: Pid, f: FL.State, p: CP.Producer, w: CP.World, b: Block)
    requires Glue(s) && pid in s.dc
    requires f.refs.Keys == s.fl.refs.Keys + {b} && f.client == s.fl.client + {b}
             && w.place == s.cp.world.place[b := CP.Carried(pid)]
    requires var q := s.cp.prods[pid];
             p.head == q.head && p.tail == q.tail && p.deqs == q.deqs && p.enq.EReset? && !q.enq.EIdle?
               && !q.enq.ETestRoom? && !q.enq.EWrite? && !q.enq.EPublish?
    ensures Glue(State(f, s.dc, CP.State(s.cp.prods[pid := p], w)))
  {
    hide SameBlock;
    var s' := State(f, s.dc, CP.State(s.cp.prods[pid := p], w));
    assert SameCounts(s.dc[pid], s.cp.prods[pid]);
    BlockMoves(s, f, w, b, CP.Carried(pid));
    OthersSame(s, s', pid);
  }

  /** Handing out, and new nodes, in the free list's machine. */
  lemma FreeListHands(f: FL.State, a: FL.Action, b: Block)
    requires FL.WellFormed(f) && FL.Enabled(f, a)
    requires a == FL.NewNode(b) || (a.Run? && f.pcs[a.thread] == FL.GetDropTwo(b))
    ensures FL.Apply(f, a).refs.Keys == f.refs.Keys + {b} && FL.Apply(f, a).client == f.client + {b}
  {
    if a.Run? { assert FL.PcKnown(f.refs.Keys, f.pcs[a.thread]); }
  }

  lemma GiveGlue(s: State, a: Action)
    requires Glue(s) && AllInv(s) && Guard(s, a) && a.Give? && Fits(s, PartsOf(s, a))
    ensures Glue(Apply(s, PartsOf(s, a)))
  {
    hide PI.Inv, DC.Inv, FL.Good, SameBlock, CP.EnqStep, CP.EnqDefined, Grows, LoneAccess;
    var s', b := Apply(s, PartsOf(s, a)), s.cp.prods[a.pid].deqs[a.thread].block;
    assert SameCounts(s.dc[a.pid], s.cp.prods[a.pid]);
    GivenIsHome(s.cp, a.pid, a.thread);
    assert SameBlock(s.fl, s.cp.world, b);
    GivenIsNode(s, b);
    BlockMoves(s, s'.fl, s'.cp.world, b, CP.Free);
    OthersSame(s, s', a.pid);
  }

  lemma GivenIsNode(s: State, b: Block)
    requires SameBlock(s.fl, s.cp.world, b) && b in s.cp.world.place && s.cp.world.place[b].Home?
    ensures b in s.fl.refs && s.fl.refs.Keys + {b} == s.fl.refs.Keys
  {
  }

  lemma HandoverGlue(s: State, a: Action)
    requires Glue(s) && AllInv(s) && Guard(s, a) && (a.FromPool? || a.Malloc? || a.Get?) && Fits(s, PartsOf(s, a))
    ensures Glue(Apply(s, PartsOf(s, a)))
  {
    hide Glue, AllInv, SameCounts, SameBlock;
    var pid, q := a.pid, PartsOf(s, a);
    var b := match a case FromPool(_) => s.cp.world.pool.next case Malloc(_, b) => b case Get(_, t) => s.fl.pcs[t].node;
    var got := if a.FromPool? then None else Some(b);
    FreeListHands(s.fl, q.f.value, b);
    HandoverStep(pid, s.cp.prods[pid], s.cp.world, got, b);
    hide FL.Apply, CP.EnqStep, FL.Enabled, FL.WellFormed, CP.EnqDefined;
    var (p, w) := CP.EnqStep(pid, s.cp.prods[pid], s.cp.world, got);
    TakeGlue(s, pid, FL.Apply(s.fl, q.f.value), p, w, b);
    assert Apply(s, q) == State(FL.Apply(s.fl, q.f.value), s.dc, CP.State(s.cp.prods[pid := p], w));
  }

  lemma GlueKept(s: State, a: Action)
    requires Glue(s) && AllInv(s) && Guard(s, a)
    ensures Fits(s, PartsOf(s, a)) && Glue(Apply(s, PartsOf(s, a)))
  {
    GuardFits(s, a);
    hide Glue, AllInv, Guard, Fits, PartsOf;
    match a
    case FreeListAlone(_) => FreeListGlue(s, a);
    case CountersAlone(_, _) => CountersGlue(s, a);
    case ProducersAlone(_) => ProducersGlue(s, a);
    case Claim(_, _) => ClaimGlue(s, a);
    case TestRoom(_) => TestRoomGlue(s, a);
    case Fail(_, _) => FailGlue(s, a);
    case Publish(_) => PublishGlue(s, a);
    case FromPool(_) => HandoverGlue(s, a);
    case Malloc(_, _) => HandoverGlue(s, a);
    case Get(_, _) => HandoverGlue(s, a);
    case Give(_, _, _) => GiveGlue(s, a);
  }

  // ----- Runs -----

  ghost predicate Init(s: State) {
    && FL.Init(s.fl) && PS.Init(s.cp) && s.dc.Keys == s.cp.prods.Keys
    && forall pid <- s.dc {:trigger s.dc[pid]} :: DC.Init(s.dc[pid])
  }

  /** `Fits` only makes the parts defined; NeverRefused shows that no run is cut short by it. */
  ghost predicate Step(s: State, a: Action, s': State) {
    Guard(s, a) && Fits(s, PartsOf(s, a)) && s' == Apply(s, PartsOf(s, a))
  }

  ghost predicate Timely(s: State) { forall pid <- s.dc {:trigger s.dc[pid]} :: DC.Timely(s.dc[pid]) }

  ghost predicate Execution(run: seq<State>, acts: seq<Action>) {
    && |run| == |acts| + 1 && Init(run[0])
    && (forall i | 0 <= i < |acts| :: Step(run[i], acts[i], run[i + 1]))
    && forall i | 0 <= i < |run| :: Timely(run[i])
  }

  // ----- Projections -----

  /** The state is the last of some execution of its machine alone. */
  ghost predicate FreeListRun(f: FL.State) {
    exists run, acts {:trigger FL.Execution(run, acts)} ::
      FL.Execution(run, acts) && run[|run| - 1] == f
  }

  ghost predicate CountersRun(c: DC.State) {
    exists run, acts {:trigger DC.Execution(run, acts)} ::
      DC.Execution(run, acts) && run[|run| - 1] == c
  }

  ghost predicate ProducersRun(p: CP.State) {
    exists run, acts {:trigger PS.Execution(run, acts)} ::
      PS.Execution(run, acts) && run[|run| - 1] == p
  }

  ghost predicate Projects(s: State) {
    FreeListRun(s.fl) && ProducersRun(s.cp) && forall pid <- s.dc {:trigger s.dc[pid]} :: CountersRun(s.dc[pid])
  }

  lemma FreeListOn(f: FL.State, a: FL.Action, f': FL.State)
    requires FreeListRun(f) && FL.Step(f, a, f')
    ensures FreeListRun(f')
  {
    hide FL.Step, FL.Init;
    var run, acts :| FL.Execution(run, acts) && run[|run| - 1] == f;
    var run', acts' := run + [f'], acts + [a];
    forall i | 0 <= i < |acts'| ensures FL.Step(run'[i], acts'[i], run'[i + 1]) {
      if i < |acts| { assert FL.Step(run[i], acts[i], run[i + 1]); }
    }
    assert FL.Execution(run', acts');
  }

  lemma CountersOn(c: DC.State, a: DC.Action, c': DC.State)
    requires CountersRun(c) && DC.Step(c, a, c') && DC.Timely(c')
    ensures CountersRun(c')
  {
    hide DC.Step, DC.Init, DC.Timely;
    var run, acts :| DC.Execution(run, acts) && run[|run| - 1] == c;
    var run', acts' := run + [c'], acts + [a];
    forall i | 0 <= i < |acts'| ensures DC.Step(run'[i], acts'[i], run'[i + 1]) {
      if i < |acts| { assert DC.Step(run[i], acts[i], run[i + 1]); }
    }
    assert DC.Execution(run', acts');
  }

  lemma ProducersOn(p: CP.State, a: CP.Action, p': CP.State)
    requires ProducersRun(p) && PS.Step(p, a, p')
    ensures ProducersRun(p')
  {
    hide PS.Step, PS.Init;
    var run, acts :| PS.Execution(run, acts) && run[|run| - 1] == p;
    var run', acts' := run + [p'], acts + [a];
    forall i | 0 <= i < |acts'| ensures PS.Step(run'[i], acts'[i], run'[i + 1]) {
      if i < |acts| { assert PS.Step(run[i], acts[i], run[i + 1]); }
    }
    assert PS.Execution(run', acts');
  }

  lemma StartProjects(s: State)
    requires Init(s) && Timely(s)
    ensures Projects(s) && Glue(s)
  {
    hide FL.Step, DC.Step, PS.Step, DC.Timely;
    assert FL.Execution([s.fl], []) && PS.Execution([s.cp], []);
    forall pid <- s.dc ensures CountersRun(s.dc[pid]) { assert DC.Execution([s.dc[pid]], []); }
    forall b: Block ensures SameBlock(s.fl, s.cp.world, b) {}
  }

  lemma ProjectsInv(s: State)
    requires Projects(s)
    ensures AllInv(s)
  {
    hide FL.Step, DC.Step, PS.Step, FL.Init, DC.Init, PS.Init, DC.Timely, FL.Good, DC.Inv, PI.Inv;
    var r1, a1 :| FL.Execution(r1, a1) && r1[|r1| - 1] == s.fl;
    FL.Reachable(r1, a1, |r1| - 1);
    var r2, a2 :| PS.Execution(r2, a2) && r2[|r2| - 1] == s.cp;
    PS.Reachable(r2, a2, |r2| - 1);
    forall pid <- s.dc ensures DC.Inv(s.dc[pid]) {
      var r, a :| DC.Execution(r, a) && r[|r| - 1] == s.dc[pid];
      DC.Reachable(r, a, |r| - 1);
    }
  }

  lemma StepProjects(s: State, a: Action, s': State)
    requires Projects(s) && Step(s, a, s') && Timely(s')
    ensures Projects(s')
  {
    hide FreeListRun, CountersRun, ProducersRun, Guard, PartsOf, FL.Apply, DC.Apply, CP.Apply, DC.Timely,
         FL.WellFormed, CP.Defined, CP.Enabled, FL.Enabled, DC.Enabled;
    var q := PartsOf(s, a);
    if q.f.Some? { FreeListOn(s.fl, q.f.value, s'.fl); }
    if q.p.Some? { ProducersOn(s.cp, q.p.value, s'.cp); }
    if q.c.Some? { CountersOn(s.dc[q.c.value.0], q.c.value.1, s'.dc[q.c.value.0]); }
  }

  /** Every state of every run of the whole queue is, machine by machine, the end of an execution of
      that machine alone: so all that is proved of the reachable states of the free list, of the
      counters and of the producers holds of it, and the three agree on indices and blocks. */
  lemma {:induction false} RunProjects(run: seq<State>, acts: seq<Action>, i: nat)
    requires Execution(run, acts) && i < |run|
    ensures Projects(run[i]) && Glue(run[i])
  {
    hide Projects, Glue, Step, Init, Timely;
    if i == 0 {
      StartProjects(run[0]);
    } else {
      RunProjects(run, acts, i - 1);
      assert Step(run[i - 1], acts[i - 1], run[i]);
      ProjectsInv(run[i - 1]);
      StepProjects(run[i - 1], acts[i - 1], run[i]);
      StepGlue(run[i - 1], acts[i - 1], run[i]);
    }
  }

  lemma StepGlue(s: State, a: Action, s': State)
    requires Glue(s) && AllInv(s) && Step(s, a, s')
    ensures Glue(s')
  {
    hide Glue, AllInv, Guard, PartsOf, Fits;
    GlueKept(s, a);
  }

  /** Whatever a thread's own view lets it do in a reachable state, all machines allow: a claim is of
      published elements, try_get returns only what is on the free list, add is given only what is not. */
  lemma NeverRefused(run: seq<State>, acts: seq<Action>, i: nat, a: Action)
    requires Execution(run, acts) && i < |run| && Guard(run[i], a)
    ensures Fits(run[i], PartsOf(run[i], a))
  {
    hide Execution, Projects, Glue, AllInv, Guard, PartsOf, Fits;
    RunProjects(run, acts, i);
    ProjectsInv(run[i]);
    GuardFits(run[i], a);
  }
}
