module FreeList {
  /* The CAS-based lock-free free list of src/concurrentqueue.h, as a transition system.

     One transition is one atomic operation of one thread, under sequentially consistent
     interleaving.  `Pc` names the atomic operation a thread is about to perform together
     with the local variables that are still live there; `refs` holds the raw 32-bit word
     `freeListRefs`, whose top bit is "should be on free list" and whose low 31 bits count. */

  const SHOULD_BE_ON_FREELIST: int := 0x8000_0000
  const WORD: int := 0x1_0000_0000
  type Word32 = x: int | 0 <= x < WORD
  const MAX_THREADS: int := 0x7FFF_FFFE

  type Node = nat
  type Thread = nat

  datatype Pointer = Null | To(node: Node)

  /** Where `add_knowing_refcount_is_zero` continues when it returns: out of `add`, or back
      into the loop of `try_get` with the head its failed CAS reloaded. */
  datatype After = Finish | Resume(reloaded: Pointer)

  datatype Pc =
    | Idle
    | AddFetch(node: Node)                                      // fetch_add(SHOULD_BE_ON_FREELIST)
    | PushLoadHead(node: Node, after: After)                    // load freeListHead
    | PushStoreNext(node: Node, after: After, seen: Pointer)    // store freeListNext
    | PushStoreRefs(node: Node, after: After, seen: Pointer)    // store 1 to freeListRefs
    | PushCas(node: Node, after: After, seen: Pointer)          // CAS the node in as the head
    | PushUndo(node: Node, after: After, seen: Pointer)         // fetch_add(SHOULD_BE_ON_FREELIST - 1)
    | GetLoadHead                                               // load freeListHead
    | GetLoadRefs(node: Node)                                   // load freeListRefs
    | GetIncRefs(node: Node, word: Word32)                         // CAS refs to refs + 1
    | GetLoadNext(node: Node)                                   // load freeListNext
    | GetCas(node: Node, next: Pointer)                         // CAS the head out
    | GetAssert(node: Node)                                     // the assert on the should-be-on bit
    | GetDropTwo(node: Node)                                    // fetch_sub(2), return the node
    | GetDropOne(node: Node, reloaded: Pointer)                 // fetch_sub(1)

  datatype State = State(
    head: Pointer,
    refs: map<Node, Word32>,
    next: map<Node, Pointer>,
    client: set<Node>,          // nodes in the hands of the callers
    pcs: map<Thread, Pc>)

  datatype Action =
    | NewNode(created: Node)
    | CallAdd(thread: Thread, given: Node)
    | CallTryGet(thread: Thread)
    | Run(thread: Thread)

  // ----- Transitions -----

  function Loop(head: Pointer): Pc {
    match head case Null => Idle case To(n) => GetLoadRefs(n)
  }

  function Return(after: After): Pc {
    match after case Finish => Idle case Resume(head) => Loop(head)
  }

  /** `word & REFS_MASK`: a 32-bit word without its top bit. */
  function Masked(word: Word32): nat { if word < SHOULD_BE_ON_FREELIST then word else word - SHOULD_BE_ON_FREELIST }

  /** 32-bit wrap-around of one addition, |delta| being less than a word. */
  function FetchAdd(word: Word32, delta: int): Word32
    requires -WORD < delta < WORD
  {
    if word + delta < 0 then word + delta + WORD else if word + delta >= WORD then word + delta - WORD else word + delta
  }

  ghost predicate Init(s: State) {
    && s.head == Null && s.refs == map[] && s.next == map[] && s.client == {}
    && |s.pcs| <= MAX_THREADS
    && forall t <- s.pcs :: s.pcs[t] == Idle
  }

  predicate Known(nodes: set<Node>, p: Pointer) { p.To? ==> p.node in nodes }

  ghost predicate Enabled(s: State, a: Action) {
    match a
    case NewNode(n) => n !in s.refs
    case CallAdd(t, n) => t in s.pcs && s.pcs[t] == Idle && n in s.client
    case CallTryGet(t) => t in s.pcs && s.pcs[t] == Idle
    case Run(t) => t in s.pcs && s.pcs[t] != Idle
  }

  predicate Pushes(pc: Pc) {
    pc.PushLoadHead? || pc.PushStoreNext? || pc.PushStoreRefs? || pc.PushCas? || pc.PushUndo?
  }

  /** The program counter and its locals only mention nodes that exist. */
  predicate PcKnown(nodes: set<Node>, pc: Pc) {
    && (!pc.Idle? && !pc.GetLoadHead? ==> pc.node in nodes)
    && (Pushes(pc) && !pc.PushLoadHead? ==> Known(nodes, pc.seen))
    && (Pushes(pc) && pc.after.Resume? ==> Known(nodes, pc.after.reloaded))
    && (pc.GetDropOne? ==> Known(nodes, pc.reloaded))
    && (pc.GetCas? ==> Known(nodes, pc.next))
  }

  /** The types a state must have for every access in a transition to be defined. */
  ghost predicate WellFormed(s: State) {
    && s.next.Keys == s.refs.Keys
    && s.client <= s.refs.Keys
    && Known(s.refs.Keys, s.head)
    && (forall n <- s.next :: Known(s.refs.Keys, s.next[n]))
    && (forall t <- s.pcs {:trigger PcKnown(s.refs.Keys, s.pcs[t])} :: PcKnown(s.refs.Keys, s.pcs[t]))
  }

  function Goto(s: State, t: Thread, pc: Pc): State { s.(pcs := s.pcs[t := pc]) }

  /** What one atomic operation does to the thread (`pc`), to the head pointer, and to the two
      fields of the one node it works on; `handsOut` is set when try_get hands that node out. */
  datatype Effect = Effect(pc: Pc, head: Pointer, word: Word32, next: Pointer, handsOut: bool)

  /** The atomic operation at `pc`, given the head and the node's freeListRefs and freeListNext. */
  function Exec(pc: Pc, head: Pointer, word: Word32, next: Pointer): Effect
    requires pc != Idle && pc != GetLoadHead
  {
    var n := pc.node;
    match pc
    case AddFetch(_) =>
      Effect(if word == 0 then PushLoadHead(n, Finish) else Idle, head, FetchAdd(word, SHOULD_BE_ON_FREELIST), next, false)
    case PushLoadHead(_, k) => Effect(PushStoreNext(n, k, head), head, word, next, false)
    case PushStoreNext(_, k, seen) => Effect(PushStoreRefs(n, k, seen), head, word, seen, false)
    case PushStoreRefs(_, k, seen) => Effect(PushCas(n, k, seen), head, 1, next, false)
    case PushCas(_, k, seen) =>
      if head == seen then Effect(Return(k), To(n), word, next, false)
      else Effect(PushUndo(n, k, head), head, word, next, false)
    case PushUndo(_, k, seen) =>
      Effect(if word == 1 then PushStoreNext(n, k, seen) else Return(k),
             head, FetchAdd(word, SHOULD_BE_ON_FREELIST - 1), next, false)
    case GetLoadRefs(_) =>
      Effect(if Masked(word) == 0 then GetLoadHead else GetIncRefs(n, word), head, word, next, false)
    case GetIncRefs(_, seen) =>
      if word == seen then Effect(GetLoadNext(n), head, FetchAdd(word, 1), next, false)
      else Effect(GetLoadHead, head, word, next, false)
    case GetLoadNext(_) => Effect(GetCas(n, next), head, word, next, false)
    case GetCas(_, after) =>
      if head == To(n) then Effect(GetAssert(n), after, word, next, false)
      else Effect(GetDropOne(n, head), head, word, next, false)
    case GetAssert(_) => Effect(GetDropTwo(n), head, word, next, false)
    case GetDropTwo(_) => Effect(Idle, head, FetchAdd(word, -2), next, true)
    case GetDropOne(_, reloaded) =>
      Effect(if word == SHOULD_BE_ON_FREELIST + 1 then PushLoadHead(n, Resume(reloaded)) else Loop(reloaded),
             head, FetchAdd(word, -1), next, false)
  }

  ghost predicate AtNode(s: State, t: Thread) {
    t in s.pcs && s.pcs[t] != Idle && s.pcs[t] != GetLoadHead
  }

  ghost function ExecAt(s: State, t: Thread): Effect
    requires WellFormed(s) && AtNode(s, t)
  {
    assert PcKnown(s.refs.Keys, s.pcs[t]);
    Exec(s.pcs[t], s.head, s.refs[s.pcs[t].node], s.next[s.pcs[t].node])
  }

  ghost function Apply(s: State, a: Action): State
    requires WellFormed(s) && Enabled(s, a)
  {
    match a
    case NewNode(n) => s.(refs := s.refs[n := 0], next := s.next[n := Null], client := s.client + {n})
    case CallAdd(t, n) => Goto(s.(client := s.client - {n}), t, AddFetch(n))
    case CallTryGet(t) => Goto(s, t, GetLoadHead)
    case Run(t) =>
      if s.pcs[t] == GetLoadHead then Goto(s, t, Loop(s.head))
      else
        var n, e := s.pcs[t].node, ExecAt(s, t);
        State(e.head, s.refs[n := e.word], s.next[n := e.next],
              if e.handsOut then s.client + {n} else s.client, s.pcs[t := e.pc])
  }

  // ----- The invariant -----

  /** Where a node is.  Every node has one place, which is the exclusive-ownership property. */
  datatype Place =
    | Client
    | Adding(owner: Thread)       // in the first step of add
    | Pushing(owner: Thread)      // this thread, and no other, is responsible for linking it in
    | Listed
    | Taken(owner: Thread)        // CASed off the head, not yet returned
    | Deferred                 // its push is left to whoever drops the last reference

  predicate EarlyPush(pc: Pc, n: Node) {
    (pc.PushLoadHead? || pc.PushStoreNext? || pc.PushStoreRefs?) && pc.node == n
  }
  predicate LatePush(pc: Pc, n: Node) { (pc.PushCas? || pc.PushUndo?) && pc.node == n }
  predicate Takes(pc: Pc, n: Node) { (pc.GetAssert? || pc.GetDropTwo?) && pc.node == n }
  predicate Holds(pc: Pc, n: Node) {
    (pc.GetLoadNext? || pc.GetCas? || pc.GetAssert? || pc.GetDropTwo? || pc.GetDropOne?) && pc.node == n
  }

  /** The threads that own one unit of the node's reference count. */
  ghost function Holders(s: State, n: Node): set<Thread> { set t | t in s.pcs && Holds(s.pcs[t], n) }

  /** A thread's program counter says what the node's place says, and only then. */
  predicate PlaceAgrees(pc: Pc, t: Thread, n: Node, place: Place) {
    && (pc == AddFetch(n) <==> place == Adding(t))
    && (EarlyPush(pc, n) || LatePush(pc, n) <==> place == Pushing(t))
    && (Takes(pc, n) <==> place == Taken(t))
  }

  predicate PlaceThread(threads: set<Thread>, place: Place) {
    (place.Adding? || place.Pushing? || place.Taken?) ==> place.owner in threads
  }

  ghost predicate PlacesOk(s: State, list: seq<Node>, at: map<Node, Place>) {
    && at.Keys == s.refs.Keys
    && (forall n <- at :: (at[n] == Client <==> n in s.client) && (at[n] == Listed <==> n in list))
    && (forall n <- at {:trigger PlaceThread(s.pcs.Keys, at[n])} :: PlaceThread(s.pcs.Keys, at[n]))
    && (forall n <- at, t <- s.pcs {:trigger PlaceAgrees(s.pcs[t], t, n, at[n])} :: PlaceAgrees(s.pcs[t], t, n, at[n]))
  }

  /** `list` is the chain of nodes that starts at the head pointer. */
  ghost predicate Chain(next: map<Node, Pointer>, from: Pointer, list: seq<Node>)
    decreases |list|
  {
    match from
    case Null => list == []
    case To(n) => list != [] && list[0] == n && n in next && n !in list[1..] && Chain(next, next[n], list[1..])
  }

  /** The owner of a node being pushed decides which phase the push is in. */
  ghost function Owner(s: State, place: Place): Pc {
    if (place.Adding? || place.Pushing? || place.Taken?) && place.owner in s.pcs then s.pcs[place.owner] else Idle
  }

  /** The word in memory is exactly the references that exist plus the flag.  Pushers past the
      store of 1, and takers, still count the list's own reference. */
  predicate WordOk(word: Word32, n: Node, place: Place, owner: Pc, holders: nat) {
    if place.Listed? || place.Taken? || (place.Pushing? && LatePush(owner, n)) then word == holders + 1
    else if place.Deferred? then holders > 0 && word == holders + SHOULD_BE_ON_FREELIST
    else if place.Pushing? then holders == 0 && word == SHOULD_BE_ON_FREELIST
    else word == holders
  }

  ghost predicate CountOk(s: State, n: Node, place: Place)
    requires n in s.refs
  {
    WordOk(s.refs[n], n, place, Owner(s, place), |Holders(s, n)|)
  }

  ghost predicate LocalsOk(next: map<Node, Pointer>, pc: Pc) {
    && (pc.GetCas? && pc.node in next ==> next[pc.node] == pc.next)
    && ((pc.PushStoreRefs? || pc.PushCas?) && pc.node in next ==> next[pc.node] == pc.seen)
    && (pc.GetIncRefs? ==> Masked(pc.word) != 0)
  }

  ghost predicate Inv(s: State, list: seq<Node>, at: map<Node, Place>) {
    && WellFormed(s)
    && |s.pcs| <= MAX_THREADS
    && Chain(s.next, s.head, list)
    && PlacesOk(s, list, at)
    && (forall n <- at {:trigger CountOk(s, n, at[n])} :: CountOk(s, n, at[n]))
    && (forall t <- s.pcs {:trigger LocalsOk(s.next, s.pcs[t])} :: LocalsOk(s.next, s.pcs[t]))
  }

  // ----- Preservation -----

  /** The place the node at hand moves to, given what the operation did. */
  function PlaceAfter(pc: Pc, t: Thread, place: Place, e: Effect): Place
    requires pc != Idle && pc != GetLoadHead
  {
    match pc
    case AddFetch(_) => if e.pc == Idle then Deferred else Pushing(t)
    case PushCas(_, _, _) => if e.pc.PushUndo? then place else Listed
    case PushUndo(_, _, _) => if e.pc.PushStoreNext? then place else Deferred
    case GetCas(_, _) => if e.pc.GetAssert? then Taken(t) else place
    case GetDropTwo(_) => Client
    case GetDropOne(_, _) => if e.pc.PushLoadHead? then Pushing(t) else place
    case _ => place
  }

  ghost function NextList(s: State, list: seq<Node>, a: Action): seq<Node> {
    if !a.Run? || a.thread !in s.pcs then list else
    match s.pcs[a.thread]
    case PushCas(n, _, seen) => if s.head == seen then [n] + list else list
    case GetCas(n, _) => if s.head == To(n) && list != [] then list[1..] else list
    case _ => list
  }

  ghost function NextPlaces(s: State, at: map<Node, Place>, a: Action): map<Node, Place>
    requires WellFormed(s) && Enabled(s, a) && at.Keys == s.refs.Keys
  {
    match a
    case NewNode(n) => at[n := Client]
    case CallAdd(t, n) => at[n := Adding(t)]
    case CallTryGet(_) => at
    case Run(t) =>
      assert PcKnown(s.refs.Keys, s.pcs[t]);
      if s.pcs[t].GetLoadHead? then at
      else at[s.pcs[t].node := PlaceAfter(s.pcs[t], t, at[s.pcs[t].node], ExecAt(s, t))]
  }

  // -- Well-formedness --

  lemma ExecKnown(nodes: set<Node>, pc: Pc, head: Pointer, word: Word32, next: Pointer)
    requires pc != Idle && pc != GetLoadHead
    requires PcKnown(nodes, pc) && Known(nodes, head) && Known(nodes, next)
    ensures var e := Exec(pc, head, word, next);
            PcKnown(nodes, e.pc) && Known(nodes, e.head) && Known(nodes, e.next)
  {
  }

  lemma RunWellFormed(s: State, t: Thread)
    requires WellFormed(s) && AtNode(s, t)
    ensures WellFormed(Apply(s, Run(t)))
  {
    var pc, s' := s.pcs[t], Apply(s, Run(t));
    assert PcKnown(s.refs.Keys, pc);
    ExecKnown(s.refs.Keys, pc, s.head, s.refs[pc.node], s.next[pc.node]);
    assert s'.refs.Keys == s.refs.Keys && s'.next.Keys == s.next.Keys;
  }

  lemma StepWellFormed(s: State, a: Action)
    requires WellFormed(s) && Enabled(s, a)
    ensures WellFormed(Apply(s, a))
  {
    if a.Run? && s.pcs[a.thread] != GetLoadHead {
      RunWellFormed(s, a.thread);
    } else {
      forall t <- s.pcs ensures PcKnown(Apply(s, a).refs.Keys, Apply(s, a).pcs[t]) {
        assert PcKnown(s.refs.Keys, s.pcs[t]);
      }
    }
  }

  // -- Reference counts --

  lemma HoldersAfter(s: State, s': State, t: Thread, n: Node)
    requires t in s.pcs && t in s'.pcs && s'.pcs == s.pcs[t := s'.pcs[t]]
    ensures |Holders(s', n)| == |Holders(s, n)| - (if Holds(s.pcs[t], n) then 1 else 0)
                                + (if Holds(s'.pcs[t], n) then 1 else 0)
  {
    var rest := Holders(s, n) - {t};
    assert Holders(s, n) == if Holds(s.pcs[t], n) then rest + {t} else rest;
    assert Holders(s', n) == if Holds(s'.pcs[t], n) then rest + {t} else rest;
  }

  lemma HoldersBound(s: State, t: Thread, n: Node)
    requires t in s.pcs
    ensures |Holders(s, n)| <= |s.pcs|
    ensures !Holds(s.pcs[t], n) ==> |Holders(s, n)| < |s.pcs|
    ensures Holds(s.pcs[t], n) ==> |Holders(s, n)| > 0
  {
    SubsetSize(Holders(s, n), s.pcs.Keys);
    SubsetSize(Holders(s, n) + {t}, s.pcs.Keys);
    assert Holds(s.pcs[t], n) ==> t in Holders(s, n);
  }

  lemma {:induction false} SubsetSize(a: set<Thread>, b: set<Thread>)
    requires a <= b
    ensures |a| <= |b|
    decreases |a|
  {
    if a != {} {
      var x :| x in a;
      SubsetSize(a - {x}, b - {x});
    }
  }

  predicate OwnedBy(place: Place, t: Thread) { place == Adding(t) || place == Pushing(t) || place == Taken(t) }

  /** The facts about the node that one operation starts from. */
  ghost predicate Before(pc: Pc, t: Thread, word: Word32, place: Place, owner: Pc, holders: nat) {
    && pc != Idle && pc != GetLoadHead
    && WordOk(word, pc.node, place, owner, holders)
    && PlaceAgrees(pc, t, pc.node, place)
    && (OwnedBy(place, t) ==> owner == pc)
    && holders <= MAX_THREADS && (Holds(pc, pc.node) ==> holders > 0) && (!Holds(pc, pc.node) ==> holders < MAX_THREADS)
    && (pc.GetIncRefs? ==> Masked(pc.word) != 0)
  }

  ghost predicate CountAfter(pc: Pc, t: Thread, place: Place, owner: Pc, holders: nat, e: Effect)
    requires pc != Idle && pc != GetLoadHead && (Holds(pc, pc.node) ==> holders > 0)
  {
    var place' := PlaceAfter(pc, t, place, e);
    var holders' := holders - (if Holds(pc, pc.node) then 1 else 0) + (if Holds(e.pc, pc.node) then 1 else 0);
    WordOk(e.word, pc.node, place', if OwnedBy(place', t) then e.pc else owner, holders')
  }

  lemma ExecCountAdd(pc: Pc, t: Thread, head: Pointer, word: Word32, next: Pointer, place: Place, owner: Pc, holders: nat)
    requires Before(pc, t, word, place, owner, holders) && (pc.AddFetch? || pc.PushUndo?)
    ensures CountAfter(pc, t, place, owner, holders, Exec(pc, head, word, next))
  {
  }

  lemma ExecCountPush(pc: Pc, t: Thread, head: Pointer, word: Word32, next: Pointer, place: Place, owner: Pc, holders: nat)
    requires Before(pc, t, word, place, owner, holders) && (Pushes(pc) && !pc.PushUndo?)
    ensures CountAfter(pc, t, place, owner, holders, Exec(pc, head, word, next))
  {
  }

  lemma ExecCountInc(pc: Pc, t: Thread, head: Pointer, word: Word32, next: Pointer, place: Place, owner: Pc, holders: nat)
    requires Before(pc, t, word, place, owner, holders) && pc.GetIncRefs?
    ensures CountAfter(pc, t, place, owner, holders, Exec(pc, head, word, next))
  {
    match place case Deferred => case Listed => case _ =>
  }

  lemma ExecCountDrop(pc: Pc, t: Thread, head: Pointer, word: Word32, next: Pointer, place: Place, owner: Pc, holders: nat)
    requires Before(pc, t, word, place, owner, holders) && (pc.GetDropTwo? || pc.GetDropOne?)
    ensures CountAfter(pc, t, place, owner, holders, Exec(pc, head, word, next))
  {
  }

  lemma ExecCountGet(pc: Pc, t: Thread, head: Pointer, word: Word32, next: Pointer, place: Place, owner: Pc, holders: nat)
    requires Before(pc, t, word, place, owner, holders)
    requires pc.GetLoadRefs? || pc.GetLoadNext? || pc.GetCas? || pc.GetAssert?
    requires pc.GetCas? && head == To(pc.node) ==> place == Listed
    ensures CountAfter(pc, t, place, owner, holders, Exec(pc, head, word, next))
  {
    hide Chain;
  }

  // -- Places --

  /** The three ways a thread and a node can meet a step of thread t at node pc.node. */
  lemma ExecPlaceSelf(pc: Pc, t: Thread, head: Pointer, word: Word32, next: Pointer, place: Place, owner: Pc, holders: nat)
    requires Before(pc, t, word, place, owner, holders)
    ensures PlaceAgrees(Exec(pc, head, word, next).pc, t, pc.node, PlaceAfter(pc, t, place, Exec(pc, head, word, next)))
  {
    match place case Deferred => case Listed => case _ =>
  }

  lemma ExecPlaceOther(pc: Pc, t: Thread, head: Pointer, word: Word32, next: Pointer, place: Place, owner: Pc, holders: nat,
                       u: Thread, pcu: Pc)
    requires Before(pc, t, word, place, owner, holders)
    requires pc.GetCas? && head == To(pc.node) ==> place == Listed
    requires u != t && PlaceAgrees(pcu, u, pc.node, place)
    ensures PlaceAgrees(pcu, u, pc.node, PlaceAfter(pc, t, place, Exec(pc, head, word, next)))
  {
    match place case Deferred => case Listed => case _ =>
  }

  lemma ExecPlaceElsewhere(pc: Pc, t: Thread, head: Pointer, word: Word32, next: Pointer, m: Node, place: Place)
    requires pc != Idle && pc != GetLoadHead && m != pc.node && PlaceAgrees(pc, t, m, place)
    ensures PlaceAgrees(Exec(pc, head, word, next).pc, t, m, place)
  {
  }

  /** What a thread at a node knows about it. */
  lemma BeforeRun(s: State, list: seq<Node>, at: map<Node, Place>, t: Thread)
    requires Inv(s, list, at) && AtNode(s, t)
    ensures var pc := s.pcs[t];
            && pc.node in at && pc.node in s.next
            && Before(pc, t, s.refs[pc.node], at[pc.node], Owner(s, at[pc.node]), |Holders(s, pc.node)|)
            && (s.head == To(pc.node) ==> at[pc.node] == Listed && list != [] && list[0] == pc.node)
  {
    var pc := s.pcs[t];
    assert PcKnown(s.refs.Keys, pc);
    assert CountOk(s, pc.node, at[pc.node]) && PlaceAgrees(pc, t, pc.node, at[pc.node]) && LocalsOk(s.next, pc);
    HoldersBound(s, t, pc.node);
  }

  lemma RunPlace(s: State, list: seq<Node>, at: map<Node, Place>, t: Thread, u: Thread, n: Node)
    requires Inv(s, list, at) && AtNode(s, t) && u in s.pcs && n in at
    ensures var at', s' := NextPlaces(s, at, Run(t)), Apply(s, Run(t));
            n in at' && u in s'.pcs && PlaceAgrees(s'.pcs[u], u, n, at'[n])
  {
    var pc := s.pcs[t];
    BeforeRun(s, list, at, t);
    var word, next, place, owner, holders := s.refs[pc.node], s.next[pc.node], at[pc.node], Owner(s, at[pc.node]),
      |Holders(s, pc.node)|;
    assert PlaceAgrees(s.pcs[u], u, n, at[n]);
    if u != t && n == pc.node {
      ExecPlaceOther(pc, t, s.head, word, next, place, owner, holders, u, s.pcs[u]);
    } else if u == t && n == pc.node {
      ExecPlaceSelf(pc, t, s.head, word, next, place, owner, holders);
    } else if u == t {
      ExecPlaceElsewhere(pc, t, s.head, word, next, n, at[n]);
    }
  }

  lemma {:induction false} ChainFrame(next: map<Node, Pointer>, next': map<Node, Pointer>, from: Pointer, list: seq<Node>)
    requires Chain(next, from, list)
    requires forall n <- list :: n in next' && (n in next ==> next'[n] == next[n])
    ensures Chain(next', from, list)
    decreases |list|
  {
    if from.To? { ChainFrame(next, next', next[from.node], list[1..]); }
  }

  lemma {:induction false} ChainKnown(next: map<Node, Pointer>, from: Pointer, list: seq<Node>)
    requires Chain(next, from, list)
    ensures forall n <- list :: n in next
    decreases |list|
  {
    if from.To? { ChainKnown(next, next[from.node], list[1..]); }
  }

  lemma ExecShared(pc: Pc, head: Pointer, word: Word32, next: Pointer)
    requires pc != Idle && pc != GetLoadHead
    ensures Exec(pc, head, word, next).next == if pc.PushStoreNext? then pc.seen else next
    ensures Exec(pc, head, word, next).head ==
              if pc.PushCas? && head == pc.seen then To(pc.node)
              else if pc.GetCas? && head == To(pc.node) then pc.next
              else head
  {
  }

  lemma RunChain(s: State, list: seq<Node>, at: map<Node, Place>, t: Thread)
    requires Inv(s, list, at) && AtNode(s, t)
    ensures Chain(Apply(s, Run(t)).next, Apply(s, Run(t)).head, NextList(s, list, Run(t)))
  {
    var s', pc := Apply(s, Run(t)), s.pcs[t];
    BeforeRun(s, list, at, t);
    ExecShared(pc, s.head, s.refs[pc.node], s.next[pc.node]);
    assert LocalsOk(s.next, pc);
    ChainKnown(s.next, s.head, list);
    assert pc.PushStoreNext? ==> pc.node !in list;
    ChainFrame(s.next, s'.next, s.head, list);
    if pc.PushCas? && s.head == pc.seen {
      assert pc.node !in list && ([pc.node] + list)[1..] == list;
    }
  }

  /** Listed and Client are the membership of the two collections, before and after. */
  /** Membership of the list follows the places. */
  lemma ListMembership(s: State, list: seq<Node>, t: Thread, n: Node)
    requires AtNode(s, t) && Chain(s.next, s.head, list) && (s.pcs[t].GetCas? && s.head == To(s.pcs[t].node) ==> list != [])
    ensures var pc, swaps := s.pcs[t], s.pcs[t].GetCas? && s.head == To(s.pcs[t].node);
            n in NextList(s, list, Run(t)) <==>
              (n in list && !(swaps && n == pc.node)) || (pc.PushCas? && s.head == pc.seen && n == pc.node)
  {
    if list != [] { assert list == [list[0]] + list[1..]; }
  }

  lemma RunMembership(s: State, list: seq<Node>, at: map<Node, Place>, t: Thread, n: Node)
    requires Inv(s, list, at) && AtNode(s, t) && n in at
    ensures var at' := NextPlaces(s, at, Run(t));
            && n in at' && PlaceThread(s.pcs.Keys, at'[n])
            && (at'[n] == Client <==> n in Apply(s, Run(t)).client)
            && (at'[n] == Listed <==> n in NextList(s, list, Run(t)))
  {
    hide LocalsOk, PlaceAgrees, CountOk;
    var pc := s.pcs[t];
    BeforeRun(s, list, at, t);
    ListMembership(s, list, t, n);
    hide Chain, NextList;
    assert PlaceThread(s.pcs.Keys, at[n]);
    ExecMembership(pc, t, s.head, s.refs[pc.node], s.next[pc.node], at[pc.node]);
  }

  lemma ExecMembership(pc: Pc, t: Thread, head: Pointer, word: Word32, next: Pointer, place: Place)
    requires pc != Idle && pc != GetLoadHead && PlaceAgrees(pc, t, pc.node, place)
    requires pc.GetDropOne? && word == SHOULD_BE_ON_FREELIST + 1 ==> place == Deferred
    requires pc.GetCas? && head == To(pc.node) ==> place == Listed
    ensures var e := Exec(pc, head, word, next);
            var place' := PlaceAfter(pc, t, place, e);
            && (place' == Client <==> place == Client || e.handsOut)
            && (place' == Listed <==> (place == Listed && !(pc.GetCas? && head == To(pc.node)))
                                      || (pc.PushCas? && head == pc.seen))
            && (place' == place || PlaceThread({t}, place'))
  {
  }

  /** No action changes which threads there are, and places are kept for all nodes. */
  lemma StepKeys(s: State, at: map<Node, Place>, a: Action)
    requires WellFormed(s) && Enabled(s, a) && at.Keys == s.refs.Keys
    ensures NextPlaces(s, at, a).Keys == Apply(s, a).refs.Keys && Apply(s, a).pcs.Keys == s.pcs.Keys
    ensures a.Run? ==> NextPlaces(s, at, a).Keys == at.Keys
  {
    if MovesAtNode(s, a) { assert PcKnown(s.refs.Keys, s.pcs[a.thread]); }
  }

  lemma RunAgree(s: State, list: seq<Node>, at: map<Node, Place>, t: Thread)
    requires Inv(s, list, at) && AtNode(s, t)
    ensures var s', at' := Apply(s, Run(t)), NextPlaces(s, at, Run(t));
            forall n <- at', u <- s'.pcs {:trigger PlaceAgrees(s'.pcs[u], u, n, at'[n])} :: PlaceAgrees(s'.pcs[u], u, n, at'[n])
  {
    StepKeys(s, at, Run(t));
    var s', at' := Apply(s, Run(t)), NextPlaces(s, at, Run(t));
    hide *;
    forall n, u | n in at' && u in s'.pcs ensures PlaceAgrees(s'.pcs[u], u, n, at'[n]) {
      RunPlace(s, list, at, t, u, n);
    }
  }

  lemma RunPlaces(s: State, list: seq<Node>, at: map<Node, Place>, t: Thread)
    requires Inv(s, list, at) && AtNode(s, t)
    ensures PlacesOk(Apply(s, Run(t)), NextList(s, list, Run(t)), NextPlaces(s, at, Run(t)))
  {
    StepKeys(s, at, Run(t));
    RunAgree(s, list, at, t);
    hide Inv, PlaceAgrees, PlaceThread, NextList, Apply, NextPlaces, WellFormed;
    var s', at' := Apply(s, Run(t)), NextPlaces(s, at, Run(t));
    forall n <- at'
      ensures (at'[n] == Client <==> n in s'.client) && (at'[n] == Listed <==> n in NextList(s, list, Run(t)))
      ensures PlaceThread(s'.pcs.Keys, at'[n])
    {
      RunMembership(s, list, at, t, n);
    }
  }

  lemma CallMembership(s: State, list: seq<Node>, at: map<Node, Place>, a: Action, n: Node)
    requires Inv(s, list, at) && Enabled(s, a) && (a.Run? ==> s.pcs[a.thread] == GetLoadHead) && n in NextPlaces(s, at, a)
    ensures var at' := NextPlaces(s, at, a);
            && (at'[n] == Client <==> n in Apply(s, a).client) && (at'[n] == Listed <==> n in NextList(s, list, a))
            && PlaceThread(s.pcs.Keys, at'[n])
  {
    ChainKnown(s.next, s.head, list);
    hide Chain, CountOk, LocalsOk, PlaceAgrees;
    if n in at { assert PlaceThread(s.pcs.Keys, at[n]); }
  }

  lemma CallPlaces(s: State, list: seq<Node>, at: map<Node, Place>, a: Action)
    requires Inv(s, list, at) && Enabled(s, a) && (a.Run? ==> s.pcs[a.thread] == GetLoadHead)
    ensures PlacesOk(Apply(s, a), NextList(s, list, a), NextPlaces(s, at, a))
  {
    StepKeys(s, at, a);
    hide Inv, PlaceAgrees, PlaceThread, NextList, Apply, NextPlaces, WellFormed;
    var s', at' := Apply(s, a), NextPlaces(s, at, a);
    forall n <- at'
      ensures (at'[n] == Client <==> n in s'.client) && (at'[n] == Listed <==> n in NextList(s, list, a))
      ensures PlaceThread(s'.pcs.Keys, at'[n])
    {
      CallMembership(s, list, at, a, n);
    }
    forall n, u | n in at' && u in s'.pcs ensures PlaceAgrees(s'.pcs[u], u, n, at'[n]) {
      CallPlace(s, list, at, a, u, n);
    }
  }

  lemma StepPlaces(s: State, list: seq<Node>, at: map<Node, Place>, a: Action)
    requires Inv(s, list, at) && Enabled(s, a)
    ensures PlacesOk(Apply(s, a), NextList(s, list, a), NextPlaces(s, at, a))
  {
    hide Inv, PlacesOk, Apply, NextList, NextPlaces;
    if a.Run? && s.pcs[a.thread] != GetLoadHead { RunPlaces(s, list, at, a.thread); } else { CallPlaces(s, list, at, a); }
  }

  lemma CallPlace(s: State, list: seq<Node>, at: map<Node, Place>, a: Action, u: Thread, n: Node)
    requires Inv(s, list, at) && Enabled(s, a) && (a.Run? ==> s.pcs[a.thread] == GetLoadHead)
    requires n in NextPlaces(s, at, a) && u in s.pcs
    ensures u in Apply(s, a).pcs && PlaceAgrees(Apply(s, a).pcs[u], u, n, NextPlaces(s, at, a)[n])
  {
    assert PcKnown(s.refs.Keys, s.pcs[u]);
    if n in at { assert PlaceAgrees(s.pcs[u], u, n, at[n]); }
  }

  // -- Counts and locals --

  lemma ExecCount(pc: Pc, t: Thread, head: Pointer, word: Word32, next: Pointer, place: Place, owner: Pc, holders: nat)
    requires Before(pc, t, word, place, owner, holders)
    requires pc.GetCas? && head == To(pc.node) ==> place == Listed
    ensures CountAfter(pc, t, place, owner, holders, Exec(pc, head, word, next))
  {
    match pc
    case AddFetch(_) => ExecCountAdd(pc, t, head, word, next, place, owner, holders);
    case PushUndo(_, _, _) => ExecCountAdd(pc, t, head, word, next, place, owner, holders);
    case GetIncRefs(_, _) => ExecCountInc(pc, t, head, word, next, place, owner, holders);
    case GetDropTwo(_) => ExecCountDrop(pc, t, head, word, next, place, owner, holders);
    case GetDropOne(_, _) => ExecCountDrop(pc, t, head, word, next, place, owner, holders);
    case GetLoadRefs(_) => ExecCountGet(pc, t, head, word, next, place, owner, holders);
    case GetLoadNext(_) => ExecCountGet(pc, t, head, word, next, place, owner, holders);
    case GetCas(_, _) => ExecCountGet(pc, t, head, word, next, place, owner, holders);
    case GetAssert(_) => ExecCountGet(pc, t, head, word, next, place, owner, holders);
    case _ => ExecCountPush(pc, t, head, word, next, place, owner, holders);
  }

  /** The operation leaves every owner but t, and every place it does not set, as it was. */
  lemma ExecOwner(pc: Pc, t: Thread, place: Place, e: Effect)
    requires pc != Idle && pc != GetLoadHead
    ensures var place' := PlaceAfter(pc, t, place, e);
            place' == place || OwnedBy(place', t) || place'.Client? || place'.Listed? || place'.Deferred?
  {
  }

  lemma ExecHolds(pc: Pc, head: Pointer, word: Word32, next: Pointer, n: Node)
    requires pc != Idle && pc != GetLoadHead && n != pc.node
    ensures !Holds(Exec(pc, head, word, next).pc, n)
  {
  }

  lemma RunCount(s: State, list: seq<Node>, at: map<Node, Place>, t: Thread, n: Node)
    requires Inv(s, list, at) && AtNode(s, t) && n in at
    ensures var at', s' := NextPlaces(s, at, Run(t)), Apply(s, Run(t));
            n in at' && n in s'.refs && CountOk(s', n, at'[n])
  {
    hide Chain;
    var pc, s', at' := s.pcs[t], Apply(s, Run(t)), NextPlaces(s, at, Run(t));
    BeforeRun(s, list, at, t);
    assert CountOk(s, n, at[n]) && PlaceAgrees(pc, t, n, at[n]);
    HoldersAfter(s, s', t, n);
    if n == pc.node {
      ExecCount(pc, t, s.head, s.refs[n], s.next[n], at[n], Owner(s, at[n]), |Holders(s, n)|);
      ExecOwner(pc, t, at[n], ExecAt(s, t));
    } else {
      ExecHolds(pc, s.head, s.refs[pc.node], s.next[pc.node], n);
      assert Owner(s', at[n]) == Owner(s, at[n]);
    }
  }

  lemma CallCount(s: State, list: seq<Node>, at: map<Node, Place>, a: Action, n: Node)
    requires Inv(s, list, at) && Enabled(s, a) && (a.Run? ==> s.pcs[a.thread] == GetLoadHead)
    requires n in NextPlaces(s, at, a)
    ensures n in Apply(s, a).refs && CountOk(Apply(s, a), n, NextPlaces(s, at, a)[n])
  {
    hide Chain, Exec, PlaceAfter;
    var s' := Apply(s, a);
    if n in at {
      assert CountOk(s, n, at[n]);
      assert !a.NewNode? ==> PlaceAgrees(s.pcs[a.thread], a.thread, n, at[n]);
    } else {
      forall t <- s.pcs ensures !Holds(s.pcs[t], n) { assert PcKnown(s.refs.Keys, s.pcs[t]); }
      assert Holders(s', n) == {};
    }
    if a.NewNode? {
      assert Holders(s', n) == Holders(s, n);
    } else {
      HoldersAfter(s, s', a.thread, n);
    }
  }

  lemma ExecLocals(pc: Pc, head: Pointer, word: Word32, next: Pointer, map0: map<Node, Pointer>)
    requires pc != Idle && pc != GetLoadHead && pc.node in map0 && map0[pc.node] == next && LocalsOk(map0, pc)
    ensures var e := Exec(pc, head, word, next); LocalsOk(map0[pc.node := e.next], e.pc)
  {
  }

  /** No thread that remembers a node's next pointer can see it change: only an early push stores
      there, and an early push is alone with the node. */
  lemma RunLocals(s: State, list: seq<Node>, at: map<Node, Place>, t: Thread, u: Thread)
    requires Inv(s, list, at) && AtNode(s, t) && u in s.pcs
    ensures u in Apply(s, Run(t)).pcs && LocalsOk(Apply(s, Run(t)).next, Apply(s, Run(t)).pcs[u])
  {
    var pc, pcu := s.pcs[t], s.pcs[u];
    BeforeRun(s, list, at, t);
    assert LocalsOk(s.next, pc) && LocalsOk(s.next, pcu);
    ExecShared(pc, s.head, s.refs[pc.node], s.next[pc.node]);
    if u == t {
      ExecLocals(pc, s.head, s.refs[pc.node], s.next[pc.node], s.next);
    } else if pc.PushStoreNext? && (pcu.GetCas? || pcu.PushStoreRefs? || pcu.PushCas?) && pcu.node == pc.node {
      assert PlaceAgrees(pcu, u, pc.node, at[pc.node]);
      HoldersBound(s, u, pc.node);
    }
  }

  ghost predicate MovesAtNode(s: State, a: Action) { a.Run? && AtNode(s, a.thread) }

  lemma StepChain(s: State, list: seq<Node>, at: map<Node, Place>, a: Action)
    requires Inv(s, list, at) && Enabled(s, a)
    ensures Chain(Apply(s, a).next, Apply(s, a).head, NextList(s, list, a))
  {
    if MovesAtNode(s, a) {
      RunChain(s, list, at, a.thread);
    } else {
      ChainKnown(s.next, s.head, list);
      ChainFrame(s.next, Apply(s, a).next, s.head, list);
    }
  }

  lemma StepCounts(s: State, list: seq<Node>, at: map<Node, Place>, a: Action)
    requires Inv(s, list, at) && Enabled(s, a)
    ensures forall n <- NextPlaces(s, at, a) :: n in Apply(s, a).refs && CountOk(Apply(s, a), n, NextPlaces(s, at, a)[n])
  {
    forall n <- NextPlaces(s, at, a)
      ensures n in Apply(s, a).refs && CountOk(Apply(s, a), n, NextPlaces(s, at, a)[n])
    {
      if MovesAtNode(s, a) {
        BeforeRun(s, list, at, a.thread);
        RunCount(s, list, at, a.thread, n);
      } else {
        CallCount(s, list, at, a, n);
      }
    }
  }

  lemma StepLocals(s: State, list: seq<Node>, at: map<Node, Place>, a: Action)
    requires Inv(s, list, at) && Enabled(s, a)
    ensures Apply(s, a).pcs.Keys == s.pcs.Keys
    ensures forall u <- s.pcs :: u in Apply(s, a).pcs && LocalsOk(Apply(s, a).next, Apply(s, a).pcs[u])
  {
    forall u <- s.pcs ensures u in Apply(s, a).pcs && LocalsOk(Apply(s, a).next, Apply(s, a).pcs[u]) {
      if MovesAtNode(s, a) {
        RunLocals(s, list, at, a.thread, u);
      } else {
        assert LocalsOk(s.next, s.pcs[u]) && PcKnown(s.refs.Keys, s.pcs[u]);
      }
    }
  }

  /** Every action keeps the invariant. */
  lemma StepInv(s: State, list: seq<Node>, at: map<Node, Place>, a: Action)
    requires Inv(s, list, at) && Enabled(s, a)
    ensures Inv(Apply(s, a), NextList(s, list, a), NextPlaces(s, at, a))
  {
    StepWellFormed(s, a);
    StepPlaces(s, list, at, a);
    StepChain(s, list, at, a);
    StepCounts(s, list, at, a);
    StepLocals(s, list, at, a);
    var s' := Apply(s, a);
    assert |s'.pcs| == |s'.pcs.Keys| == |s.pcs.Keys| == |s.pcs|;
  }

  // ----- Runs and the main results -----

  /** `WellFormed` only makes the accesses defined; `Reachable` shows no run is cut short by it. */
  ghost predicate Step(s: State, a: Action, s': State) {
    WellFormed(s) && Enabled(s, a) && s' == Apply(s, a)
  }

  /** Any number of actions, by any threads, in any order. */
  ghost predicate Execution(run: seq<State>, acts: seq<Action>) {
    && |run| == |acts| + 1
    && Init(run[0])
    && forall i | 0 <= i < |acts| :: Step(run[i], acts[i], run[i + 1])
  }

  ghost predicate Good(s: State) { exists list, at :: Inv(s, list, at) }

  lemma {:induction false} Reachable(run: seq<State>, acts: seq<Action>, i: nat)
    requires Execution(run, acts) && i < |run|
    ensures Good(run[i])
  {
    if i == 0 {
      var s := run[0];
      assert Inv(s, [], map[]);
    } else {
      Reachable(run, acts, i - 1);
      assert Step(run[i - 1], acts[i - 1], run[i]);
      var list, at :| Inv(run[i - 1], list, at);
      StepInv(run[i - 1], list, at, acts[i - 1]);
    }
  }

  /** The thread that alone may link, has just unlinked, or is just giving back the node. */
  predicate Responsible(pc: Pc, n: Node) {
    pc == AddFetch(n) || EarlyPush(pc, n) || LatePush(pc, n) || Takes(pc, n)
  }

  ghost function ResponsibleThreads(s: State, n: Node): set<Thread> {
    set t | t in s.pcs && Responsible(s.pcs[t], n)
  }

  /** How many times the node is spoken for. */
  ghost function Claims(s: State, list: seq<Node>, n: Node): nat {
    (if n in s.client then 1 else 0) + (if n in list then 1 else 0) + |ResponsibleThreads(s, n)|
  }

  lemma ResponsibleByPlace(s: State, list: seq<Node>, at: map<Node, Place>, n: Node)
    requires Inv(s, list, at) && n in at
    ensures ResponsibleThreads(s, n) ==
              if at[n].Adding? || at[n].Pushing? || at[n].Taken? then {at[n].owner} else {}
  {
    assert PlaceThread(s.pcs.Keys, at[n]);
    if at[n].Adding? || at[n].Pushing? || at[n].Taken? {
      assert PlaceAgrees(s.pcs[at[n].owner], at[n].owner, n, at[n]);
    }
    forall t <- s.pcs ensures Responsible(s.pcs[t], n) ==>
        (at[n].Adding? || at[n].Pushing? || at[n].Taken?) && t == at[n].owner {
      assert PlaceAgrees(s.pcs[t], t, n, at[n]);
    }
  }

  /** Exclusive ownership and no lost node: the chain from the head is finite and acyclic, no
      node is spoken for twice, and a node nobody speaks for is flagged and still referenced, so
      the last of those references will push it. */
  lemma ExclusiveOwnership(run: seq<State>, acts: seq<Action>, i: nat)
    requires Execution(run, acts) && i < |run|
    ensures exists list :: Chain(run[i].next, run[i].head, list) &&
              forall n <- run[i].refs ::
                && Claims(run[i], list, n) <= 1
                && (Claims(run[i], list, n) == 0 ==>
                      && Holders(run[i], n) != {}
                      && run[i].refs[n] == SHOULD_BE_ON_FREELIST + |Holders(run[i], n)|)
  {
    Reachable(run, acts, i);
    var s := run[i];
    var list, at :| Inv(s, list, at);
    forall n <- s.refs
      ensures Claims(s, list, n) <= 1
      ensures Claims(s, list, n) == 0 ==> Holders(s, n) != {} && s.refs[n] == SHOULD_BE_ON_FREELIST + |Holders(s, n)|
    {
      ResponsibleByPlace(s, list, at, n);
      assert CountOk(s, n, at[n]);
    }
  }

  /** The assert in try_get never fails. */
  lemma AssertHolds(run: seq<State>, acts: seq<Action>, i: nat, t: Thread)
    requires Execution(run, acts) && i < |run| && t in run[i].pcs && run[i].pcs[t].GetAssert?
    ensures run[i].pcs[t].node in run[i].refs
    ensures run[i].refs[run[i].pcs[t].node] < SHOULD_BE_ON_FREELIST
  {
    Reachable(run, acts, i);
    var list, at :| Inv(run[i], list, at);
    BeforeRun(run[i], list, at, t);
  }

  /** No ABA: the pointer a taker remembers is the node's current next pointer, so a head CAS that
      succeeds takes exactly the first node off the chain and leaves the rest linked. */
  lemma HeadCasRemovesHead(run: seq<State>, acts: seq<Action>, i: nat, t: Thread)
    requires Execution(run, acts) && i < |acts| && acts[i] == Run(t) && t in run[i].pcs && run[i].pcs[t].GetCas?
    requires run[i].head == To(run[i].pcs[t].node)
    ensures exists rest :: Chain(run[i].next, run[i].head, [run[i].pcs[t].node] + rest)
                           && Chain(run[i + 1].next, run[i + 1].head, rest)
  {
    Reachable(run, acts, i);
    assert Step(run[i], acts[i], run[i + 1]);
    var list, at :| Inv(run[i], list, at);
    BeforeRun(run[i], list, at, t);
    StepChain(run[i], list, at, acts[i]);
    assert list == [run[i].pcs[t].node] + list[1..];
  }

  /** While a thread holds a reference to a node, nobody changes the node's next pointer. */
  lemma NextStableWhileHeld(run: seq<State>, acts: seq<Action>, i: nat, t: Thread, n: Node)
    requires Execution(run, acts) && i < |acts| && t in run[i].pcs && Holds(run[i].pcs[t], n)
    ensures n in run[i].next && n in run[i + 1].next && run[i + 1].next[n] == run[i].next[n]
  {
    hide Chain;
    Reachable(run, acts, i);
    assert Step(run[i], acts[i], run[i + 1]);
    var s, a := run[i], acts[i];
    var list, at :| Inv(s, list, at);
    assert PcKnown(s.refs.Keys, s.pcs[t]);
    if MovesAtNode(s, a) {
      var pc := s.pcs[a.thread];
      BeforeRun(s, list, at, a.thread);
      ExecShared(pc, s.head, s.refs[pc.node], s.next[pc.node]);
      HoldersBound(s, t, n);
    }
  }

  /** When no call is in progress, every node is with a client or reachable from the head, never
      both, and its word counts only the list. */
  lemma QuiescentComplete(run: seq<State>, acts: seq<Action>, i: nat)
    requires Execution(run, acts) && i < |run| && forall t <- run[i].pcs :: run[i].pcs[t] == Idle
    ensures exists list :: Chain(run[i].next, run[i].head, list) &&
              forall n <- run[i].refs ::
                && (n in list <==> n !in run[i].client)
                && run[i].refs[n] == if n in list then 1 else 0
  {
    hide Chain;
    Reachable(run, acts, i);
    var s := run[i];
    var list, at :| Inv(s, list, at);
    forall n <- s.refs
      ensures (n in list <==> n !in s.client) && s.refs[n] == if n in list then 1 else 0
    {
      assert CountOk(s, n, at[n]);
      ResponsibleByPlace(s, list, at, n);
      assert Holders(s, n) == {};
      assert ResponsibleThreads(s, n) == {};
    }
  }

  /** The action in which a try_get call returns the node. */
  ghost predicate HandsOut(s: State, a: Action, n: Node) {
    a.Run? && a.thread in s.pcs && s.pcs[a.thread] == GetDropTwo(n)
  }

  lemma {:induction false} StaysWithClient(run: seq<State>, acts: seq<Action>, i: nat, j: nat, n: Node)
    requires Execution(run, acts) && i <= j < |run| && n in run[i].client
    requires forall k | i <= k < j :: !(acts[k].CallAdd? && acts[k].given == n)
    ensures n in run[j].client
    decreases j - i
  {
    if i < j {
      StaysWithClient(run, acts, i, j - 1, n);
      assert Step(run[j - 1], acts[j - 1], run[j]);
    }
  }

  /** No node is returned by two try_get calls without an add of it in between. */
  lemma TakenOnce(run: seq<State>, acts: seq<Action>, i: nat, j: nat, n: Node)
    requires Execution(run, acts) && i < j < |acts|
    requires HandsOut(run[i], acts[i], n) && HandsOut(run[j], acts[j], n)
    ensures exists k :: i < k < j && acts[k].CallAdd? && acts[k].given == n
  {
    hide Chain;
    assert Step(run[i], acts[i], run[i + 1]);
    Reachable(run, acts, i);
    Reachable(run, acts, j);
    var list, at :| Inv(run[j], list, at);
    if forall k | i + 1 <= k < j :: !(acts[k].CallAdd? && acts[k].given == n) {
      StaysWithClient(run, acts, i + 1, j, n);
      BeforeRun(run[j], list, at, acts[j].thread);
      assert false;
    }
  }

  // ----- Progress: what a call that runs alone does -----

  /** k steps of one thread, with no other thread in between; fewer if its call is over before. */
  ghost function Alone(s: State, t: Thread, k: nat): State
    decreases k
  {
    if k == 0 || !WellFormed(s) || !Enabled(s, Run(t)) then s else Alone(Apply(s, Run(t)), t, k - 1)
  }

  /** Bounds the steps to the end of the call that a try_get in its loop, with `head` in hand, takes. */
  function LoopRank(at: Pointer, head: Pointer, list: seq<Node>): nat {
    if at == Null then 0 else if at == head then 6 else if at.node in list then 11 else 20
  }

  /** The steps after a push. */
  function AfterRank(after: After, head: Pointer, list: seq<Node>): nat {
    match after case Finish => 0 case Resume(r) => if r == head && r != Null then 11 else LoopRank(r, head, list)
  }

  /** Bounds the steps that a thread at `pc` takes to the end of its call if it runs alone. */
  ghost function Rank(pc: Pc, head: Pointer, list: seq<Node>, refs: map<Node, Word32>): nat {
    match pc
    case Idle => 0
    case AddFetch(_) => 5
    case PushLoadHead(_, k) => AfterRank(k, head, list) + 4
    case PushStoreNext(_, k, seen) => AfterRank(k, head, list) + if seen == head then 3 else 7
    case PushStoreRefs(_, k, seen) => AfterRank(k, head, list) + if seen == head then 2 else 6
    case PushCas(_, k, seen) => AfterRank(k, head, list) + if seen == head then 1 else 5
    case PushUndo(_, k, seen) => AfterRank(k, head, list) + if seen == head then 4 else 8
    case GetLoadHead => 7
    case GetLoadRefs(n) => LoopRank(To(n), head, list)
    case GetIncRefs(n, word) => if n in refs && refs[n] == word then LoopRank(To(n), head, list) - 1 else 8
    case GetLoadNext(n) => LoopRank(To(n), head, list) - 2
    case GetCas(n, _) => LoopRank(To(n), head, list) - 3
    case GetAssert(_) => 2
    case GetDropTwo(_) => 1
    case GetDropOne(n, r) => if n in list then LoopRank(r, head, list) + 1 else AfterRank(Resume(r), head, list) + 5
  }

  /** The head is a node of the list, and referenced by it. */
  lemma HeadIsListed(s: State, list: seq<Node>, at: map<Node, Place>)
    requires Inv(s, list, at) && s.head.To?
    ensures s.head.node in list && s.head.node in s.refs && 1 <= s.refs[s.head.node] < SHOULD_BE_ON_FREELIST
  {
    ListedWord(s, list, at, s.head.node);
  }

  lemma ListedWord(s: State, list: seq<Node>, at: map<Node, Place>, n: Node)
    requires Inv(s, list, at) && n in list
    ensures n in s.refs && s.refs[n] == |Holders(s, n)| + 1 < SHOULD_BE_ON_FREELIST
  {
    ChainKnown(s.next, s.head, list);
    assert CountOk(s, n, at[n]);
    HolderCount(s, n);
  }

  lemma HolderCount(s: State, n: Node)
    requires |s.pcs| <= MAX_THREADS
    ensures |Holders(s, n)| <= MAX_THREADS
  {
    SubsetSize(Holders(s, n), s.pcs.Keys);
  }

  /** The rank before a thread's next operation. */
  ghost function RankOf(s: State, list: seq<Node>, t: Thread): nat
    requires t in s.pcs
  {
    Rank(s.pcs[t], s.head, list, s.refs)
  }

  /** A push brings the end nearer, whether its compare-exchange succeeds or fails. */
  lemma PushRanks(s: State, list: seq<Node>, at: map<Node, Place>, t: Thread)
    requires Inv(s, list, at) && t in s.pcs && (s.pcs[t].AddFetch? || (Pushes(s.pcs[t]) && !s.pcs[t].PushCas?))
    ensures var s' := Apply(s, Run(t)); t in s'.pcs && RankOf(s', NextList(s, list, Run(t)), t) < RankOf(s, list, t)
  {
    if s.head.To? { HeadIsListed(s, list, at); }
    hide Inv, WellFormed, PcKnown;
  }

  lemma PushCasRanks(s: State, list: seq<Node>, at: map<Node, Place>, t: Thread)
    requires Inv(s, list, at) && t in s.pcs && s.pcs[t].PushCas?
    ensures var s' := Apply(s, Run(t)); t in s'.pcs && RankOf(s', NextList(s, list, Run(t)), t) < RankOf(s, list, t)
  {
    if s.head.To? { HeadIsListed(s, list, at); }
    hide Inv, WellFormed, PcKnown;
  }

  /** So does each step of try_get. */
  lemma DropRanks(s: State, list: seq<Node>, at: map<Node, Place>, t: Thread)
    requires Inv(s, list, at) && t in s.pcs && s.pcs[t].GetDropOne?
    ensures var s' := Apply(s, Run(t)); t in s'.pcs && RankOf(s', NextList(s, list, Run(t)), t) < RankOf(s, list, t)
  {
    if s.pcs[t].node in list { ListedWord(s, list, at, s.pcs[t].node); }
    hide Inv;
  }

  lemma GetRanks(s: State, list: seq<Node>, at: map<Node, Place>, t: Thread)
    requires Inv(s, list, at) && t in s.pcs && s.pcs[t] != Idle
    requires !s.pcs[t].AddFetch? && !Pushes(s.pcs[t]) && !s.pcs[t].GetDropOne?
    ensures var s' := Apply(s, Run(t)); t in s'.pcs && RankOf(s', NextList(s, list, Run(t)), t) < RankOf(s, list, t)
  {
    if s.head.To? { HeadIsListed(s, list, at); }
    if s.pcs[t].GetLoadRefs? && s.pcs[t].node in list { ListedWord(s, list, at, s.pcs[t].node); }
    assert s.pcs[t] != GetLoadHead ==> s.pcs[t].node in s.refs by { assert PcKnown(s.refs.Keys, s.pcs[t]); }
    hide Inv, WellFormed, PcKnown;
  }

  lemma StepRanks(s: State, list: seq<Node>, at: map<Node, Place>, t: Thread)
    requires Inv(s, list, at) && t in s.pcs && s.pcs[t] != Idle
    ensures var s' := Apply(s, Run(t)); t in s'.pcs && RankOf(s', NextList(s, list, Run(t)), t) < RankOf(s, list, t)
  {
    hide Inv, RankOf, Apply, NextList;
    if s.pcs[t].PushCas? {
      PushCasRanks(s, list, at, t);
    } else if s.pcs[t].AddFetch? || Pushes(s.pcs[t]) {
      PushRanks(s, list, at, t);
    } else if s.pcs[t].GetDropOne? {
      DropRanks(s, list, at, t);
    } else {
      GetRanks(s, list, at, t);
    }
  }

  lemma InvIsWellFormed(s: State, list: seq<Node>, at: map<Node, Place>)
    requires Inv(s, list, at)
    ensures WellFormed(s) && Good(s) && at.Keys == s.refs.Keys
  {
  }

  const MAX_STEPS: nat := 28

  lemma RankBound(pc: Pc, head: Pointer, list: seq<Node>, refs: map<Node, Word32>)
    ensures Rank(pc, head, list, refs) <= MAX_STEPS
  {
  }

  lemma {:induction false} AloneEnds(s: State, list: seq<Node>, at: map<Node, Place>, t: Thread, k: nat)
    requires Inv(s, list, at) && t in s.pcs && RankOf(s, list, t) <= k
    ensures Good(Alone(s, t, k)) && t in Alone(s, t, k).pcs && Alone(s, t, k).pcs[t] == Idle
    decreases k
  {
    hide Inv, RankOf, Apply, NextList, NextPlaces;
    InvIsWellFormed(s, list, at);
    if s.pcs[t] != Idle {
      StepRanks(s, list, at, t);
      StepInv(s, list, at, Run(t));
      AloneEnds(Apply(s, Run(t)), NextList(s, list, Run(t)), NextPlaces(s, at, Run(t)), t, k - 1);
    }
  }

  /** No thread is ever stuck: from every reachable state, wherever the others have stopped, a thread
      that runs alone ends its call within 28 steps. */
  lemma ObstructionFree(run: seq<State>, acts: seq<Action>, i: nat, t: Thread)
    requires Execution(run, acts) && i < |run| && t in run[i].pcs
    ensures t in Alone(run[i], t, MAX_STEPS).pcs && Alone(run[i], t, MAX_STEPS).pcs[t] == Idle
  {
    Reachable(run, acts, i);
    var list, at :| Inv(run[i], list, at);
    RankBound(run[i].pcs[t], run[i].head, list, run[i].refs);
    hide Inv, Rank, Alone, Execution;
    AloneEnds(run[i], list, at, t, MAX_STEPS);
  }

  /** A try_get reads the head: it loads it, or a failed compare-exchange reloads it. */
  ghost predicate ReadsHead(s: State, a: Action, t: Thread) {
    a == Run(t) && t in s.pcs && (s.pcs[t] == GetLoadHead || (s.pcs[t].GetCas? && s.head != To(s.pcs[t].node)))
  }

  /** What it read last, before action i. */
  ghost function LastRead(run: seq<State>, acts: seq<Action>, i: nat, t: Thread): Pointer
    requires i <= |acts| < |run|
  {
    if i == 0 then Null
    else if ReadsHead(run[i - 1], acts[i - 1], t) then run[i - 1].head
    else LastRead(run, acts, i - 1, t)
  }

  /** The last call that t began is a try_get. */
  ghost predicate InTryGet(acts: seq<Action>, i: nat, t: Thread)
    requires i <= |acts|
  {
    i > 0 && (acts[i - 1] == CallTryGet(t) || (!(acts[i - 1].CallAdd? && acts[i - 1].thread == t) && InTryGet(acts, i - 1, t)))
  }

  predicate InPush(pc: Pc, resumes: bool) { Pushes(pc) && pc.after.Resume? == resumes }

  /** The local variables of a try_get come from what it read last. */
  ghost predicate ReadKnown(pc: Pc, inTryGet: bool, read: Pointer) {
    && (inTryGet ==> !pc.AddFetch? && !InPush(pc, false))
    && (!inTryGet ==> pc.Idle? || pc.AddFetch? || InPush(pc, false))
    && (pc.GetLoadRefs? || pc.GetIncRefs? || pc.GetLoadNext? || pc.GetCas? || pc.GetAssert? || pc.GetDropTwo? ==>
          read == To(pc.node))
    && (pc.GetDropOne? ==> read == pc.reloaded)
    && (InPush(pc, true) ==> read == pc.after.reloaded)
  }

  lemma ExecRead(pc: Pc, inTryGet: bool, read: Pointer, head: Pointer, word: Word32, next: Pointer)
    requires pc != Idle && pc != GetLoadHead && ReadKnown(pc, inTryGet, read)
    ensures ReadKnown(Exec(pc, head, word, next).pc, inTryGet, if pc.GetCas? && head != To(pc.node) then head else read)
  {
  }

  lemma StepRead(s: State, a: Action, t: Thread, inTryGet: bool, read: Pointer)
    requires WellFormed(s) && Enabled(s, a) && t in s.pcs && ReadKnown(s.pcs[t], inTryGet, read)
    ensures var s' := Apply(s, a);
            && t in s'.pcs
            && (a.Run? || a.NewNode? || a.thread != t ==>
                  ReadKnown(s'.pcs[t], inTryGet, if ReadsHead(s, a, t) then s.head else read))
            && (!a.Run? && !a.NewNode? && a.thread == t ==> ReadKnown(s'.pcs[t], a.CallTryGet?, read))
  {
    if a == Run(t) && s.pcs[t] != GetLoadHead {
      var pc := s.pcs[t];
      assert PcKnown(s.refs.Keys, pc);
      ExecRead(pc, inTryGet, read, s.head, s.refs[pc.node], s.next[pc.node]);
      hide WellFormed, Exec, ReadKnown;
    } else {
      hide WellFormed;
    }
  }

  lemma {:induction false} ReadsKnown(run: seq<State>, acts: seq<Action>, i: nat, t: Thread)
    requires Execution(run, acts) && i <= |acts| && t in run[i].pcs
    ensures ReadKnown(run[i].pcs[t], InTryGet(acts, i, t), LastRead(run, acts, i, t))
  {
    if i > 0 {
      assert Step(run[i - 1], acts[i - 1], run[i]);
      hide WellFormed, ReadKnown;
      SameThreads(run[i - 1], acts[i - 1]);
      ReadsKnown(run, acts, i - 1, t);
      StepRead(run[i - 1], acts[i - 1], t, InTryGet(acts, i - 1, t), LastRead(run, acts, i - 1, t));
    }
  }

  lemma SameThreads(s: State, a: Action)
    requires WellFormed(s) && Enabled(s, a)
    ensures Apply(s, a).pcs.Keys == s.pcs.Keys
  {
  }

  /** A try_get comes away empty-handed exactly when the head it read last was null; if not, it hands
      out the node it read, and none but that. */
  lemma GivesUpOnNull(run: seq<State>, acts: seq<Action>, i: nat, t: Thread)
    requires Execution(run, acts) && i < |acts| && acts[i] == Run(t) && InTryGet(acts, i, t)
    requires t in run[i + 1].pcs && run[i + 1].pcs[t] == Idle
    ensures forall n :: HandsOut(run[i], acts[i], n) <==> LastRead(run, acts, i + 1, t) == To(n)
  {
    assert Step(run[i], acts[i], run[i + 1]);
    ReadsKnown(run, acts, i, t);
    hide WellFormed, InTryGet;
  }

  lemma AloneNext(s: State, t: Thread, s': State, k: nat)
    requires k > 0 && WellFormed(s) && Enabled(s, Run(t)) && s' == Apply(s, Run(t))
    ensures WellFormed(s') && Alone(s, t, k) == Alone(s', t, k - 1)
  {
    StepWellFormed(s, Run(t));
  }

  /** With no other call in progress a try_get takes the first node of the list, in seven steps, and
      changes nothing else; on the empty list it gives up at the first. */
  lemma LoneTryGet(run: seq<State>, acts: seq<Action>, i: nat, t: Thread)
    requires Execution(run, acts) && i < |run| && t in run[i].pcs && forall u <- run[i].pcs :: run[i].pcs[u] == Idle
    requires run[i].head.To?
    ensures WellFormed(run[i])
    ensures var s, n, called := run[i], run[i].head.node, Apply(run[i], CallTryGet(t));
            && n in s.refs && n in s.next
            && Alone(called, t, 7) == s.(head := s.next[n], refs := s.refs[n := 0], client := s.client + {n})
            && t in Alone(called, t, 6).pcs && Alone(called, t, 6).pcs[t] != Idle
  {
    Reachable(run, acts, i);
    var list, at :| Inv(run[i], list, at);
    HeadIsListed(run[i], list, at);
    ListedWord(run[i], list, at, run[i].head.node);
    assert Holders(run[i], run[i].head.node) == {};
    hide Inv;
    TakesHead(run[i], t);
  }

  lemma TwoSteps(s: State, t: Thread, s1: State, s2: State, k: nat)
    requires k > 1 && WellFormed(s) && Enabled(s, Run(t)) && s1 == Apply(s, Run(t))
    requires Enabled(s1, Run(t)) && (WellFormed(s1) ==> s2 == Apply(s1, Run(t)))
    ensures WellFormed(s2) && Alone(s, t, k) == Alone(s2, t, k - 2)
  {
    AloneNext(s, t, s1, k);
    AloneNext(s1, t, s2, k - 1);
  }

  lemma LoadsHead(s: State, t: Thread, k: nat)
    requires WellFormed(s) && t in s.pcs && s.head.To? && s.refs[s.head.node] == 1 && k >= 2
    ensures var s2 := Goto(s, t, GetIncRefs(s.head.node, 1));
            WellFormed(s2) && Alone(Goto(s, t, GetLoadHead), t, k) == Alone(s2, t, k - 2)
  {
    PcWellFormed(s, t, GetLoadHead);
    TwoSteps(Goto(s, t, GetLoadHead), t, Goto(s, t, GetLoadRefs(s.head.node)), Goto(s, t, GetIncRefs(s.head.node, 1)), k);
  }

  lemma ReferencesHead(s: State, t: Thread, n: Node, k: nat)
    requires WellFormed(s) && t in s.pcs && n in s.refs && s.refs[n] == 1 && k >= 2
    ensures var s2 := Goto(s.(refs := s.refs[n := 2]), t, GetCas(n, s.next[n]));
            WellFormed(s2) && Alone(Goto(s, t, GetIncRefs(n, 1)), t, k) == Alone(s2, t, k - 2)
  {
    PcWellFormed(s, t, GetIncRefs(n, 1));
    var s1 := s.(refs := s.refs[n := 2]);
    TwoSteps(Goto(s, t, GetIncRefs(n, 1)), t, Goto(s1, t, GetLoadNext(n)), Goto(s1, t, GetCas(n, s.next[n])), k);
  }

  lemma SwapsHead(s: State, t: Thread, n: Node, k: nat)
    requires WellFormed(s) && t in s.pcs && s.head == To(n) && k >= 2
    ensures var s2 := Goto(s.(head := s.next[n]), t, GetDropTwo(n));
            WellFormed(s2) && Alone(Goto(s, t, GetCas(n, s.next[n])), t, k) == Alone(s2, t, k - 2)
  {
    PcWellFormed(s, t, GetCas(n, s.next[n]));
    var s1 := s.(head := s.next[n]);
    TwoSteps(Goto(s, t, GetCas(n, s.next[n])), t, Goto(s1, t, GetAssert(n)), Goto(s1, t, GetDropTwo(n)), k);
  }

  lemma DropsBoth(s: State, t: Thread, n: Node)
    requires WellFormed(s) && t in s.pcs && n in s.refs && s.refs[n] == 2
    ensures Alone(Goto(s, t, GetDropTwo(n)), t, 1) == Goto(s.(refs := s.refs[n := 0], client := s.client + {n}), t, Idle)
  {
    PcWellFormed(s, t, GetDropTwo(n));
    AloneNext(Goto(s, t, GetDropTwo(n)), t, Goto(s.(refs := s.refs[n := 0], client := s.client + {n}), t, Idle), 1);
  }

  lemma PcWellFormed(s: State, t: Thread, pc: Pc)
    requires WellFormed(s) && t in s.pcs && PcKnown(s.refs.Keys, pc)
    ensures WellFormed(Goto(s, t, pc))
  {
  }

  lemma DataWellFormed(s: State, s': State)
    requires WellFormed(s) && s'.pcs == s.pcs && s'.refs.Keys == s'.next.Keys == s.refs.Keys && s'.client <= s.refs.Keys
    requires Known(s.refs.Keys, s'.head) && forall n <- s'.next :: Known(s.refs.Keys, s'.next[n])
    ensures WellFormed(s')
  {
  }

  lemma TakesHead(s: State, t: Thread)
    requires WellFormed(s) && t in s.pcs && s.pcs[t] == Idle && s.head.To? && s.refs[s.head.node] == 1
    ensures var n, called := s.head.node, Apply(s, CallTryGet(t));
            && Alone(called, t, 7) == s.(head := s.next[n], refs := s.refs[n := 0], client := s.client + {n})
            && t in Alone(called, t, 6).pcs && Alone(called, t, 6).pcs[t] != Idle
  {
    var n := s.head.node;
    var s1 := s.(refs := s.refs[n := 2]);
    var s2 := s1.(head := s.next[n]);
    assert n in s.refs && s1.refs.Keys == s.refs.Keys && Known(s.refs.Keys, s.next[n]);
    DataWellFormed(s, s1);
    DataWellFormed(s, s2);
    hide WellFormed, Alone;
    forall k | 6 <= k <= 7 ensures Alone(Goto(s, t, GetLoadHead), t, k) == Alone(Goto(s2, t, GetDropTwo(n)), t, k - 6) {
      LoadsHead(s, t, k);
      ReferencesHead(s, t, n, k - 2);
      SwapsHead(s1, t, n, k - 4);
    }
    DropsBoth(s2, t, n);
    AloneZero(Goto(s2, t, GetDropTwo(n)), t);
    assert s1.refs[n := 0] == s.refs[n := 0] && s.pcs[t := Idle] == s.pcs;
  }

  lemma AloneZero(s: State, t: Thread)
    ensures Alone(s, t, 0) == s
  {
  }

  /** And a lone add puts its node in front, in five steps. */
  lemma LoneAdd(run: seq<State>, acts: seq<Action>, i: nat, t: Thread, n: Node)
    requires Execution(run, acts) && i < |run| && t in run[i].pcs && forall u <- run[i].pcs :: run[i].pcs[u] == Idle
    requires n in run[i].client
    ensures WellFormed(run[i]) && n in run[i].refs
    ensures var s := run[i]; var called := Apply(s, CallAdd(t, n));
            && Alone(called, t, 5) ==
                 s.(head := To(n), next := s.next[n := s.head], refs := s.refs[n := 1], client := s.client - {n})
            && t in Alone(called, t, 4).pcs && Alone(called, t, 4).pcs[t] != Idle
  {
    Reachable(run, acts, i);
    var list, at :| Inv(run[i], list, at);
    assert CountOk(run[i], n, at[n]) && Holders(run[i], n) == {};
    hide Inv;
    Puts(run[i], t, n);
  }

  lemma Flags(s: State, t: Thread, n: Node, k: nat)
    requires WellFormed(s) && t in s.pcs && n in s.refs && s.refs[n] == 0 && k >= 2
    ensures var s2 := Goto(s.(refs := s.refs[n := SHOULD_BE_ON_FREELIST]), t, PushStoreNext(n, Finish, s.head));
            WellFormed(s2) && Alone(Goto(s, t, AddFetch(n)), t, k) == Alone(s2, t, k - 2)
  {
    PcWellFormed(s, t, AddFetch(n));
    var s1 := s.(refs := s.refs[n := SHOULD_BE_ON_FREELIST]);
    TwoSteps(Goto(s, t, AddFetch(n)), t, Goto(s1, t, PushLoadHead(n, Finish)),
             Goto(s1, t, PushStoreNext(n, Finish, s.head)), k);
  }

  lemma LinksNode(s: State, t: Thread, n: Node, k: nat)
    requires WellFormed(s) && t in s.pcs && n in s.refs && k >= 2
    ensures var s2 := Goto(s.(next := s.next[n := s.head], refs := s.refs[n := 1]), t, PushCas(n, Finish, s.head));
            WellFormed(s2) && Alone(Goto(s, t, PushStoreNext(n, Finish, s.head)), t, k) == Alone(s2, t, k - 2)
  {
    PcWellFormed(s, t, PushStoreNext(n, Finish, s.head));
    var s1 := s.(next := s.next[n := s.head]);
    TwoSteps(Goto(s, t, PushStoreNext(n, Finish, s.head)), t, Goto(s1, t, PushStoreRefs(n, Finish, s.head)),
             Goto(s1.(refs := s.refs[n := 1]), t, PushCas(n, Finish, s.head)), k);
  }

  lemma SwapsIn(s: State, t: Thread, n: Node)
    requires WellFormed(s) && t in s.pcs && n in s.refs
    ensures Alone(Goto(s, t, PushCas(n, Finish, s.head)), t, 1) == Goto(s.(head := To(n)), t, Idle)
  {
    PcWellFormed(s, t, PushCas(n, Finish, s.head));
    assert s.refs[n := s.refs[n]] == s.refs && s.next[n := s.next[n]] == s.next;
    AloneNext(Goto(s, t, PushCas(n, Finish, s.head)), t, Goto(s.(head := To(n)), t, Idle), 1);
  }

  lemma Puts(s: State, t: Thread, n: Node)
    requires WellFormed(s) && t in s.pcs && s.pcs[t] == Idle && n in s.client && s.refs[n] == 0
    ensures var called := Apply(s, CallAdd(t, n));
            && Alone(called, t, 5) ==
                 s.(head := To(n), next := s.next[n := s.head], refs := s.refs[n := 1], client := s.client - {n})
            && t in Alone(called, t, 4).pcs && Alone(called, t, 4).pcs[t] != Idle
  {
    var s0 := s.(client := s.client - {n});
    var s1 := s0.(refs := s.refs[n := SHOULD_BE_ON_FREELIST]);
    var s2 := s1.(next := s.next[n := s.head], refs := s1.refs[n := 1]);
    assert n in s.refs && s1.refs.Keys == s2.refs.Keys == s.refs.Keys && s2.next.Keys == s.next.Keys;
    DataWellFormed(s, s0);
    DataWellFormed(s, s1);
    DataWellFormed(s, s2);
    hide WellFormed, Alone;
    forall k | 4 <= k <= 5
      ensures Alone(Goto(s0, t, AddFetch(n)), t, k) == Alone(Goto(s2, t, PushCas(n, Finish, s.head)), t, k - 4)
    {
      Flags(s0, t, n, k);
      LinksNode(s1, t, n, k - 2);
    }
    SwapsIn(s2, t, n);
    AloneZero(Goto(s2, t, PushCas(n, Finish, s.head)), t);
    assert s1.refs[n := 1] == s.refs[n := 1] && s.pcs[t := Idle] == s.pcs;
  }
}
