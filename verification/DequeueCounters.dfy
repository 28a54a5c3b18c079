module DequeueCounters {
  /* The head, tail, optimistic and overcommit counters of one producer in src/concurrentqueue.h,
     as a transition system: one enqueuer, any number of dequeuers, one step per atomic operation.

     A single dequeue is a bulk dequeue with max = 1 (SingleIsBulkOfOne).
     The counters are kept unwrapped and every comparison is made on their 64-bit words.
     `tickets` is a history variable: it records what became of each unit of
     dequeueOptimisticCount and no step reads it. */

  import opened CircularArithmetic

  type Thread = nat

  datatype Ticket =
    | Pending(thread: Thread)    // drawn, not decided
    | Won(thread: Thread)        // decided, headIndex not yet advanced for it
    | Claimed                 // headIndex advanced for it
    | Lost(thread: Thread)       // decided, dequeueOvercommit not yet advanced for it
    | Returned                // dequeueOvercommit advanced for it

  datatype Pc =
    | Idle
    | LoadTail(max: nat)
    | LoadOver(max: nat, seenTail: nat)
    | LoadOpt(max: nat, seenTail: nat, over: nat)
    | TakeTickets(desired: nat, over: nat)                // fetch_add on dequeueOptimisticCount
    | Decide(my: nat, desired: nat, over: nat)            // reload tailIndex and compare
    | GiveBack(my: nat, desired: nat, won: nat)           // fetch_add on dequeueOvercommit
    | Claim(my: nat, won: nat)                            // fetch_add on headIndex

  datatype State = State(
    tail: nat, head: nat, opt: nat, over: nat,
    reserved: nat,                  // end of the last block the enqueuer has obtained
    pcs: map<Thread, Pc>,
    tickets: seq<Ticket>)

  datatype Action =
    | Reserve                       // the enqueuer passes the fullness test and gets a block
    | Unreserve                     // enqueue_bulk gives its blocks back
    | Publish(newTail: nat)         // store to tailIndex
    | Call(thread: Thread, most: nat)
    | Run(thread: Thread)

  // ----- Transitions -----

  function Min(a: nat, b: nat): nat { if a < b then a else b }

  function BlockEnd(x: nat): nat { (x + BLOCK_SIZE - 1) / BLOCK_SIZE * BLOCK_SIZE }

  function Mark(ts: seq<Ticket>, lo: nat, hi: nat, v: Ticket): (r: seq<Ticket>)
    ensures |r| == |ts|
    ensures forall k | 0 <= k < |ts| :: r[k] == if lo <= k < hi then v else ts[k]
  {
    seq(|ts|, k requires 0 <= k < |ts| => if lo <= k < hi then v else ts[k])
  }

  function Draw(ts: seq<Ticket>, n: nat, t: Thread): seq<Ticket> { ts + seq(n, _ => Pending(t)) }

  /** tail - (count - overcommit) on words: how many elements the caller may hope for. */
  function Available(tail: nat, count: nat, over: nat): Word64 {
    Minus(W(tail), Minus(W(count), W(over)))
  }

  ghost predicate Init(s: State) {
    && s.tail == s.head == s.opt == s.over == s.reserved == 0
    && s.tickets == []
    && forall t <- s.pcs :: s.pcs[t] == Idle
  }

  ghost predicate Enabled(s: State, a: Action) {
    match a
    case Reserve => CircularLess(W(s.head), W(s.reserved + BLOCK_SIZE))
    case Unreserve => true
    case Publish(n) => s.tail < n <= s.reserved
    case Call(t, most) => t in s.pcs && s.pcs[t] == Idle && most > 0
    case Run(t) => t in s.pcs && s.pcs[t] != Idle
  }

  ghost function Goto(s: State, t: Thread, pc: Pc): State { s.(pcs := s.pcs[t := pc]) }

  ghost function Advance(s: State, t: Thread): State
    requires t in s.pcs
  {
    match s.pcs[t]
    case Idle => s
    case LoadTail(max) => Goto(s, t, LoadOver(max, s.tail))
    case LoadOver(max, tail) => Goto(s, t, LoadOpt(max, tail, s.over))
    case LoadOpt(max, tail, over) =>
      var desired := Available(tail, s.opt, over);
      Goto(s, t, if CircularLess(0, desired) then TakeTickets(Min(desired, max), over) else Idle)
    case TakeTickets(desired, over) =>
      Goto(s, t, Decide(s.opt, desired, over)).(opt := s.opt + desired, tickets := Draw(s.tickets, desired, t))
    case Decide(my, desired, over) =>
      var won := Granted(s.tail, my, desired, over);
      Goto(s, t, if won < desired then GiveBack(my, desired, won) else Claim(my, won))
        .(tickets := Mark(Mark(s.tickets, my, my + desired, Lost(t)), my, my + won, Won(t)))
    case GiveBack(my, desired, won) =>
      Goto(s, t, if won > 0 then Claim(my, won) else Idle)
        .(over := s.over + (if won < desired then desired - won else 0),
          tickets := Mark(s.tickets, my + won, my + desired, Returned))
    case Claim(my, won) =>
      Goto(s, t, Idle).(head := s.head + won, tickets := Mark(s.tickets, my, my + won, Claimed))
  }

  /** The number of elements a caller that drew tickets my.. is granted. */
  function Granted(tail: nat, my: nat, desired: nat, over: nat): nat {
    var actual := Available(tail, my, over);
    if CircularLess(0, actual) then Min(desired, actual) else 0
  }

  ghost function Apply(s: State, a: Action): State
    requires Enabled(s, a)
  {
    match a
    case Reserve => s.(reserved := s.reserved + BLOCK_SIZE)
    case Unreserve => s.(reserved := BlockEnd(s.tail))
    case Publish(n) => s.(tail := n)
    case Call(t, most) => Goto(s, t, LoadTail(most))
    case Run(t) => Advance(s, t)
  }

  /** No dequeuer sleeps between loading the overcommit count and comparing with it for so long
      that the counters move by 2^63: the assumption behind a 64-bit index_t. */
  ghost predicate Timely(s: State) {
    forall t <- s.pcs {:trigger s.pcs[t]} :: TimelyPc(s, s.pcs[t])
  }

  ghost predicate TimelyPc(s: State, pc: Pc) {
    && (pc.LoadOpt? ==> s.opt - pc.over - pc.seenTail <= HALF)
    && (pc.Decide? ==> -HALF < pc.my - pc.over - s.tail <= HALF)
  }

  // ----- Counting tickets -----

  predicate IsLive(k: Ticket) { !k.Lost? && !k.Returned? }
  predicate IsWin(k: Ticket) { k.Won? || k.Claimed? }
  predicate IsClaimed(k: Ticket) { k.Claimed? }
  predicate IsReturned(k: Ticket) { k.Returned? }

  /** How many of the first n tickets satisfy p. */
  function Count(ts: seq<Ticket>, n: nat, p: Ticket -> bool): (c: nat)
    requires n <= |ts|
    ensures c <= n
  {
    if n == 0 then 0 else Count(ts, n - 1, p) + if p(ts[n - 1]) then 1 else 0
  }

  lemma {:induction false} CountSame(a: seq<Ticket>, b: seq<Ticket>, n: nat, p: Ticket -> bool)
    requires n <= |a| && n <= |b| && forall k | 0 <= k < n :: p(a[k]) == p(b[k])
    ensures Count(a, n, p) == Count(b, n, p)
  {
    if n > 0 { CountSame(a, b, n - 1, p); }
  }

  lemma {:induction false} CountFewer(a: seq<Ticket>, b: seq<Ticket>, n: nat, p: Ticket -> bool, q: Ticket -> bool)
    requires n <= |a| && n <= |b| && forall k | 0 <= k < n :: p(a[k]) ==> q(b[k])
    ensures Count(a, n, p) <= Count(b, n, q)
  {
    if n > 0 { CountFewer(a, b, n - 1, p, q); }
  }

  lemma {:induction false} CountSpan(ts: seq<Ticket>, m: nat, n: nat, p: Ticket -> bool, b: bool)
    requires m <= n <= |ts| && forall k | m <= k < n :: p(ts[k]) == b
    ensures Count(ts, n, p) == Count(ts, m, p) + if b then n - m else 0
  {
    if m < n { CountSpan(ts, m, n - 1, p, b); }
  }

  lemma {:induction false} CountMonotone(ts: seq<Ticket>, m: nat, n: nat, p: Ticket -> bool)
    requires m <= n <= |ts|
    ensures Count(ts, m, p) <= Count(ts, n, p) <= Count(ts, m, p) + (n - m)
  {
    if m < n { CountMonotone(ts, m, n - 1, p); }
  }

  /** Changing a span all of whose tickets leave p, or all of which enter p. */
  lemma CountMark(a: seq<Ticket>, b: seq<Ticket>, lo: nat, hi: nat, n: nat, p: Ticket -> bool, was: bool, is_: bool)
    requires lo <= hi <= n <= |a| && |b| == |a|
    requires forall k | 0 <= k < n :: !(lo <= k < hi) ==> p(a[k]) == p(b[k])
    requires forall k | lo <= k < hi :: p(a[k]) == was && p(b[k]) == is_
    ensures Count(b, n, p) == Count(a, n, p) + (if is_ then hi - lo else 0) - (if was then hi - lo else 0)
  {
    CountSame(a, b, lo, p);
    CountSpan(a, lo, hi, p, was);
    CountSpan(b, lo, hi, p, is_);
    CountTail(a, b, hi, n, p);
  }

  lemma {:induction false} CountTail(a: seq<Ticket>, b: seq<Ticket>, m: nat, n: nat, p: Ticket -> bool)
    requires m <= n <= |a| && n <= |b| && forall k | m <= k < n :: p(a[k]) == p(b[k])
    ensures Count(b, n, p) - Count(b, m, p) == Count(a, n, p) - Count(a, m, p)
  {
    if m < n { CountTail(a, b, m, n - 1, p); }
  }

  lemma {:induction false} CountSplit(ts: seq<Ticket>, n: nat)
    requires n <= |ts|
    ensures Count(ts, n, IsClaimed) <= Count(ts, n, IsWin) <= Count(ts, n, IsLive)
    ensures Count(ts, n, IsReturned) + Count(ts, n, IsLive) <= n
  {
    if n > 0 { CountSplit(ts, n - 1); }
  }

  /** The single dequeue is the bulk dequeue with max = 1: its two tests, which compare the words
      themselves, are the tests of the differences. */
  lemma SingleIsBulkOfOne(tail: nat, count: nat, over: nat)
    ensures CircularLess(Minus(W(count), W(over)), W(tail)) <==> CircularLess(0, Available(tail, count, over))
    ensures CircularLess(0, Available(tail, count, over)) ==> Min(Available(tail, count, over), 1) == 1
    ensures Granted(tail, count, 1, over) == if CircularLess(Minus(W(count), W(over)), W(tail)) then 1 else 0
  {
    BulkTestIsSingleTest(Minus(W(count), W(over)), W(tail));
    WSmall(0);
  }

  // ----- The invariant -----

  /** Every ticket still in some thread's hands lies in that thread's range. */
  predicate TicketOk(k: nat, ticket: Ticket, pcs: map<Thread, Pc>) {
    match ticket
    case Pending(t) => t in pcs && pcs[t].Decide? && pcs[t].my <= k < pcs[t].my + pcs[t].desired
    case Won(t) => t in pcs && (pcs[t].GiveBack? || pcs[t].Claim?) && pcs[t].my <= k < pcs[t].my + pcs[t].won
    case Lost(t) => t in pcs && pcs[t].GiveBack? && pcs[t].my + pcs[t].won <= k < pcs[t].my + pcs[t].desired
    case _ => true
  }

  predicate Range(ts: seq<Ticket>, lo: nat, hi: nat, v: Ticket) {
    lo <= hi <= |ts| && forall k | lo <= k < hi :: ts[k] == v
  }

  ghost predicate PcOk(s: State, t: Thread, pc: Pc)
    requires |s.tickets| == s.opt
  {
    match pc
    case Idle => true
    case LoadTail(max) => max > 0
    case LoadOver(max, tail) => max > 0 && tail <= s.tail
    case LoadOpt(max, tail, over) => max > 0 && tail <= s.tail && over <= s.over
    case TakeTickets(desired, over) => desired > 0 && over <= s.over
    case Decide(my, desired, over) =>
      && desired > 0 && Range(s.tickets, my, my + desired, Pending(t))
      && over <= my - Count(s.tickets, my, IsLive)       // the snapshot is covered by earlier failures
    case GiveBack(my, desired, won) =>
      && won < desired && Range(s.tickets, my, my + won, Won(t)) && Range(s.tickets, my + won, my + desired, Lost(t))
    case Claim(my, won) => won > 0 && Range(s.tickets, my, my + won, Won(t))
  }

  /** Each winner was covered by the tail: the live tickets up to it do not outnumber the elements. */
  ghost predicate WinsCovered(ts: seq<Ticket>, tail: nat) {
    forall k {:trigger ts[k]} | 0 <= k < |ts| :: IsWin(ts[k]) ==> Count(ts, k + 1, IsLive) <= tail
  }

  ghost predicate Inv(s: State) {
    && |s.tickets| == s.opt
    && s.head == Count(s.tickets, s.opt, IsClaimed)
    && s.over == Count(s.tickets, s.opt, IsReturned)
    && WinsCovered(s.tickets, s.tail)
    && s.tail <= s.reserved && s.reserved % BLOCK_SIZE == 0 && s.reserved - s.head < HALF
    && (forall t <- s.pcs {:trigger PcOk(s, t, s.pcs[t])} :: PcOk(s, t, s.pcs[t]))
    && (forall k {:trigger TicketOk(k, s.tickets[k], s.pcs)} | 0 <= k < s.opt :: TicketOk(k, s.tickets[k], s.pcs))
  }

  /** headIndex plus the claims in flight never exceeds tailIndex. */
  lemma {:induction false} WinsBounded(ts: seq<Ticket>, tail: nat, n: nat)
    requires n <= |ts| && WinsCovered(ts, tail)
    ensures Count(ts, n, IsWin) <= tail
  {
    if n > 0 {
      if IsWin(ts[n - 1]) { CountSplit(ts, n); } else { WinsBounded(ts, tail, n - 1); }
    }
  }

  // ----- Preservation -----

  /** Inside the comparable window the word test and the word difference are the true ones. */
  lemma AvailableExact(tail: nat, count: nat, over: nat)
    requires -HALF <= tail - (count - over) < HALF
    ensures CircularLess(0, Available(tail, count, over)) <==> tail - (count - over) > 0
    ensures tail - (count - over) > 0 ==> Available(tail, count, over) == tail - (count - over)
  {
    var d := tail - (count - over);
    MinusIsDifference(count, over);
    MinusIsDifference(tail, count - over);
    WSmall(0);
    CircularLessWindow(0, d);
    if d > 0 { WSmall(d); }
  }

  lemma GrantedExact(tail: nat, my: nat, desired: nat, over: nat)
    requires -HALF < my - over - tail <= HALF
    ensures Granted(tail, my, desired, over) == if my - over < tail then Min(desired, tail - (my - over)) else 0
  {
    AvailableExact(tail, my, over);
  }

  /** A step of thread t that leaves the counters and tickets alone. */
  lemma RunQuiet(s: State, t: Thread)
    requires Inv(s) && t in s.pcs
    requires s.pcs[t].LoadTail? || s.pcs[t].LoadOver? || (s.pcs[t].LoadOpt? && TimelyPc(s, s.pcs[t]))
    ensures Inv(Advance(s, t))
  {
    var s', pc := Advance(s, t), s.pcs[t];
    assert PcOk(s, t, pc);
    if pc.LoadOpt? {
      CountSplit(s.tickets, s.opt);
      AvailableExact(pc.seenTail, s.opt, pc.over);
    }
    OthersKeep(s, s', t);
    TicketsKeep(s, s', t);
  }

  /** Threads other than t see nothing that their own facts depend on. */
  lemma OthersKeep(s: State, s': State, t: Thread)
    requires Inv(s) && t in s.pcs && |s'.tickets| == s'.opt && s.opt <= s'.opt && s.tail <= s'.tail && s.over <= s'.over
    requires t in s'.pcs && s'.pcs == s.pcs[t := s'.pcs[t]]
    requires forall k | 0 <= k < s.opt :: s'.tickets[k] == s.tickets[k] || TicketOf(s.tickets[k], t)
    requires forall k | 0 <= k < s.opt :: IsLive(s'.tickets[k]) ==> IsLive(s.tickets[k])
    ensures forall u <- s.pcs :: u != t ==> PcOk(s', u, s'.pcs[u])
  {
    forall u <- s.pcs | u != t ensures PcOk(s', u, s'.pcs[u]) {
      assert PcOk(s, u, s.pcs[u]);
      if s.pcs[u].Decide? {
        CountFewer(s'.tickets, s.tickets, s.pcs[u].my, IsLive, IsLive);
      }
    }
  }

  predicate TicketOf(k: Ticket, t: Thread) { k == Pending(t) || k == Won(t) || k == Lost(t) }

  /** Tickets that are not t's stay in their owners' ranges; t's own are for the caller to show. */
  lemma TicketsKeep(s: State, s': State, t: Thread)
    requires Inv(s) && t in s.pcs && |s'.tickets| == s'.opt && s.opt <= s'.opt
    requires t in s'.pcs && s'.pcs == s.pcs[t := s'.pcs[t]]
    requires forall k | 0 <= k < s.opt :: s'.tickets[k] == s.tickets[k] || TicketOf(s.tickets[k], t)
    requires forall k | 0 <= k < s'.opt ::
               (k < s.opt && s'.tickets[k] == s.tickets[k]
                ==> TicketOf(s'.tickets[k], t) && TicketOk(k, s.tickets[k], s.pcs))
               ==> TicketOk(k, s'.tickets[k], s'.pcs)
    ensures forall k | 0 <= k < s'.opt :: TicketOk(k, s'.tickets[k], s'.pcs)
  {
    forall k | 0 <= k < s'.opt ensures TicketOk(k, s'.tickets[k], s'.pcs) {
      if k < s.opt { assert TicketOk(k, s.tickets[k], s.pcs); }
    }
  }

  /** A live count that only shrinks, under a tail that only grows, keeps old winners covered. */
  lemma WinsKeep(a: seq<Ticket>, b: seq<Ticket>, tail: nat, tail': nat, k: nat)
    requires k < |a| && k < |b| && tail <= tail' && WinsCovered(a, tail) && IsWin(a[k])
    requires forall j | 0 <= j <= k :: IsLive(b[j]) ==> IsLive(a[j])
    ensures Count(b, k + 1, IsLive) <= tail'
  {
    CountFewer(b, a, k + 1, IsLive, IsLive);
  }

  lemma WinsStay(a: seq<Ticket>, b: seq<Ticket>, tail: nat)
    requires WinsCovered(a, tail) && |a| == |b|
    requires forall k | 0 <= k < |a| :: (IsWin(b[k]) ==> IsWin(a[k])) && (IsLive(b[k]) ==> IsLive(a[k]))
    ensures WinsCovered(b, tail)
  {
    forall k {:trigger b[k]} | 0 <= k < |b|
      && IsWin(b[k]) ensures Count(b, k + 1, IsLive) <= tail { WinsKeep(a, b, tail, tail, k); }
  }

  lemma TakeCounts(s: State, t: Thread)
    requires Inv(s) && t in s.pcs && s.pcs[t].TakeTickets?
    ensures var s' := Advance(s, t);
            && |s'.tickets| == s'.opt
            && (forall k | 0 <= k < s.opt :: s'.tickets[k] == s.tickets[k])
            && Range(s'.tickets, s.opt, s'.opt, Pending(t))
            && Count(s'.tickets, s'.opt, IsClaimed) == Count(s.tickets, s.opt, IsClaimed)
            && Count(s'.tickets, s'.opt, IsReturned) == Count(s.tickets, s.opt, IsReturned)
            && Count(s'.tickets, s.opt, IsLive) == Count(s.tickets, s.opt, IsLive)
  {
    var s' := Advance(s, t);
    var ts, ts' := s.tickets, s'.tickets;
    CountSame(ts, ts', s.opt, IsClaimed);
    CountSame(ts, ts', s.opt, IsReturned);
    CountSame(ts, ts', s.opt, IsLive);
    CountSpan(ts', s.opt, s'.opt, IsClaimed, false);
    CountSpan(ts', s.opt, s'.opt, IsReturned, false);
  }

  lemma RunTake(s: State, t: Thread)
    requires Inv(s) && t in s.pcs && s.pcs[t].TakeTickets?
    ensures Inv(Advance(s, t))
  {
    var s', pc := Advance(s, t), s.pcs[t];
    assert PcOk(s, t, pc);
    TakeCounts(s, t);
    CountSplit(s.tickets, s.opt);
    forall k {:trigger s'.tickets[k]} | 0 <= k < s'.opt && IsWin(s'.tickets[k])
      ensures Count(s'.tickets, k + 1, IsLive) <= s'.tail
    {
      WinsKeep(s.tickets, s'.tickets, s.tail, s'.tail, k);
    }
    OthersKeep(s, s', t);
    TicketsKeep(s, s', t);
  }

  /** The grant itself: the live tickets up to a new winner are at most my - over plus its rank. */
  lemma DecideWins(s: State, t: Thread)
    requires Inv(s) && t in s.pcs && s.pcs[t].Decide? && TimelyPc(s, s.pcs[t])
    ensures WinsCovered(Advance(s, t).tickets, s.tail)
  {
    var pc := s.pcs[t];
    assert PcOk(s, t, pc);
    var won := Granted(s.tail, pc.my, pc.desired, pc.over);
    GrantedExact(s.tail, pc.my, pc.desired, pc.over);
    hide TicketOk, PcOk, Inv, Granted, TimelyPc;
    GrantCovered(s.tickets, Advance(s, t).tickets, t, pc.my, pc.desired, won, pc.over, s.tail);
  }

  lemma GrantCovered(ts: seq<Ticket>, ts': seq<Ticket>, t: Thread, my: nat, desired: nat, won: nat, over: nat, tail: nat)
    requires WinsCovered(ts, tail) && Range(ts, my, my + desired, Pending(t)) && |ts'| == |ts| && won <= desired
    requires forall k | 0 <= k < |ts| :: ts'[k] == if my <= k < my + won then Won(t) else if my <= k < my + desired
             then Lost(t) else ts[k]
    requires over <= my - Count(ts, my, IsLive) && (won > 0 ==> won <= tail - (my - over))
    ensures WinsCovered(ts', tail)
  {
    CountSame(ts, ts', my, IsLive);
    forall k {:trigger ts'[k]} | 0 <= k < |ts'| && IsWin(ts'[k]) ensures Count(ts', k + 1, IsLive) <= tail {
      if my <= k < my + won {
        CountMonotone(ts', my, k + 1, IsLive);
      } else {
        WinsKeep(ts, ts', tail, tail, k);
      }
    }
  }

  lemma DecideCounts(s: State, t: Thread)
    requires Inv(s) && t in s.pcs && s.pcs[t].Decide? && TimelyPc(s, s.pcs[t])
    ensures var ts, ts', pc := s.tickets, Advance(s, t).tickets, s.pcs[t];
            var won := Granted(s.tail, pc.my, pc.desired, pc.over);
            && won <= pc.desired
            && Range(ts', pc.my, pc.my + won, Won(t)) && Range(ts', pc.my + won, pc.my + pc.desired, Lost(t))
            && (forall k {:trigger ts'[k]} | 0 <= k < s.opt :: !(pc.my <= k < pc.my + pc.desired) ==> ts'[k] == ts[k])
            && Count(ts', s.opt, IsClaimed) == Count(ts, s.opt, IsClaimed)
            && Count(ts', s.opt, IsReturned) == Count(ts, s.opt, IsReturned)
  {
    var pc := s.pcs[t];
    assert PcOk(s, t, pc);
    GrantedExact(s.tail, pc.my, pc.desired, pc.over);
    CountMark(s.tickets, Advance(s, t).tickets, pc.my, pc.my + pc.desired, s.opt, IsClaimed, false, false);
    CountMark(s.tickets, Advance(s, t).tickets, pc.my, pc.my + pc.desired, s.opt, IsReturned, false, false);
  }

  lemma DecideTickets(s: State, t: Thread, k: nat)
    requires Inv(s) && t in s.pcs && s.pcs[t].Decide? && TimelyPc(s, s.pcs[t]) && k < s.opt
    ensures TicketOk(k, Advance(s, t).tickets[k], Advance(s, t).pcs)
  {
    assert PcOk(s, t, s.pcs[t]);
    assert TicketOk(k, s.tickets[k], s.pcs);
    GrantedExact(s.tail, s.pcs[t].my, s.pcs[t].desired, s.pcs[t].over);
  }

  lemma DecideThreads(s: State, t: Thread)
    requires Inv(s) && t in s.pcs && s.pcs[t].Decide? && TimelyPc(s, s.pcs[t])
    ensures var s' := Advance(s, t); forall u <- s'.pcs :: PcOk(s', u, s'.pcs[u])
  {
    var s', pc := Advance(s, t), s.pcs[t];
    assert PcOk(s, t, pc);
    GrantedExact(s.tail, pc.my, pc.desired, pc.over);
    DecideCounts(s, t);
    OthersKeep(s, s', t);
    assert PcOk(s', t, s'.pcs[t]);
  }

  lemma RunDecide(s: State, t: Thread)
    requires Inv(s) && t in s.pcs && s.pcs[t].Decide? && TimelyPc(s, s.pcs[t])
    ensures Inv(Advance(s, t))
  {
    var s' := Advance(s, t);
    DecideCounts(s, t);
    DecideWins(s, t);
    DecideThreads(s, t);
    forall k | 0 <= k < s'.opt ensures TicketOk(k, s'.tickets[k], s'.pcs) { DecideTickets(s, t, k); }
  }

  lemma GiveBackCounts(s: State, t: Thread)
    requires Inv(s) && t in s.pcs && s.pcs[t].GiveBack?
    ensures var s', pc := Advance(s, t), s.pcs[t];
            && s'.over == s.over + (pc.desired - pc.won) && |s'.tickets| == s.opt
            && Count(s'.tickets, s.opt, IsClaimed) == s.head && Count(s'.tickets, s.opt, IsReturned) == s'.over
  {
    hide TicketOk, WinsCovered;
    var s', pc := Advance(s, t), s.pcs[t];
    assert PcOk(s, t, pc);
    CountMark(s.tickets, s'.tickets, pc.my + pc.won, pc.my + pc.desired, s.opt, IsClaimed, false, false);
    CountMark(s.tickets, s'.tickets, pc.my + pc.won, pc.my + pc.desired, s.opt, IsReturned, false, true);
  }

  lemma RunGiveBack(s: State, t: Thread)
    requires Inv(s) && t in s.pcs && s.pcs[t].GiveBack?
    ensures Inv(Advance(s, t))
  {
    hide WinsCovered;
    var s', pc := Advance(s, t), s.pcs[t];
    assert PcOk(s, t, pc);
    GiveBackCounts(s, t);
    WinsStay(s.tickets, s'.tickets, s.tail);
    OthersKeep(s, s', t);
    TicketsKeep(s, s', t);
  }

  lemma RunClaim(s: State, t: Thread)
    requires Inv(s) && t in s.pcs && s.pcs[t].Claim?
    ensures Inv(Advance(s, t))
  {
    var s', pc := Advance(s, t), s.pcs[t];
    assert PcOk(s, t, pc);
    var ts, ts' := s.tickets, s'.tickets;
    CountMark(ts, ts', pc.my, pc.my + pc.won, s.opt, IsClaimed, false, true);
    CountMark(ts, ts', pc.my, pc.my + pc.won, s.opt, IsReturned, false, false);
    WinsStay(ts, ts', s.tail);
    OthersKeep(s, s', t);
    TicketsKeep(s, s', t);
  }

  lemma BlockEndBounds(x: nat, r: nat)
    requires x <= r && r % BLOCK_SIZE == 0
    ensures x <= BlockEnd(x) <= r && BlockEnd(x) % BLOCK_SIZE == 0
  {
  }

  /** The fullness test, on words, keeps the queue's extent below 2^63. */
  lemma ReserveKeepsExtent(s: State)
    requires Inv(s) && Enabled(s, Reserve)
    ensures s.reserved + BLOCK_SIZE - s.head < HALF
  {
    CountSplit(s.tickets, s.opt);
    WinsBounded(s.tickets, s.tail, s.opt);
    CircularLessWindow(s.head, s.reserved + BLOCK_SIZE);
  }

  /** The enqueuer's steps concern no ticket and no dequeuer. */
  lemma DequeuersKeep(s: State, s': State)
    requires Inv(s) && s'.pcs == s.pcs && s'.tickets == s.tickets && s'.opt == s.opt && s'.over == s.over && s.tail <= s'.tail
    ensures forall t <- s'.pcs :: PcOk(s', t, s'.pcs[t])
    ensures WinsCovered(s'.tickets, s'.tail)
  {
    hide TicketOk;
    forall t <- s'.pcs ensures PcOk(s', t, s'.pcs[t]) { assert PcOk(s, t, s.pcs[t]); }
  }

  lemma ReserveStep(s: State)
    requires Inv(s) && Enabled(s, Reserve)
    ensures Inv(Apply(s, Reserve))
  {
    var s' := Apply(s, Reserve);
    DequeuersKeep(s, s');
    hide PcOk, WinsCovered;
    BlockEndBounds(s.tail, s.reserved);
    ReserveKeepsExtent(s);
    forall k | 0 <= k < s'.opt ensures TicketOk(k, s'.tickets[k], s'.pcs) { assert TicketOk(k, s.tickets[k], s.pcs); }
  }

  lemma UnreserveStep(s: State)
    requires Inv(s) && Enabled(s, Unreserve)
    ensures Inv(Apply(s, Unreserve))
  {
    var s' := Apply(s, Unreserve);
    DequeuersKeep(s, s');
    hide PcOk, WinsCovered;
    forall k | 0 <= k < s'.opt ensures TicketOk(k, s'.tickets[k], s'.pcs) { assert TicketOk(k, s.tickets[k], s.pcs); }
  }

  lemma PublishStep(s: State, newTail: nat)
    requires Inv(s) && Enabled(s, Publish(newTail))
    ensures Inv(Apply(s, Publish(newTail)))
  {
    var s' := Apply(s, Publish(newTail));
    DequeuersKeep(s, s');
    hide PcOk, WinsCovered;
    BlockEndBounds(s.tail, s.reserved);
    forall k | 0 <= k < s'.opt ensures TicketOk(k, s'.tickets[k], s'.pcs) { assert TicketOk(k, s.tickets[k], s.pcs); }
  }

  /** Every step of every timely state keeps the invariant. */
  lemma StepInv(s: State, a: Action)
    requires Inv(s) && Timely(s) && Enabled(s, a)
    ensures Inv(Apply(s, a))
  {
    match a
    case Call(t, most) =>
      var s' := Apply(s, a);
      OthersKeep(s, s', t);
      TicketsKeep(s, s', t);
    case Run(t) =>
      assert TimelyPc(s, s.pcs[t]);
      match s.pcs[t] {
        case TakeTickets(_, _) => RunTake(s, t);
        case Decide(_, _, _) => RunDecide(s, t);
        case GiveBack(_, _, _) => RunGiveBack(s, t);
        case Claim(_, _) => RunClaim(s, t);
        case _ => RunQuiet(s, t);
      }
    case Reserve => ReserveStep(s);
    case Unreserve => UnreserveStep(s);
    case Publish(newTail) => PublishStep(s, newTail);
  }

  // ----- Runs and the main results -----

  ghost predicate Step(s: State, a: Action, s': State) { Enabled(s, a) && s' == Apply(s, a) }

  ghost predicate Execution(run: seq<State>, acts: seq<Action>) {
    && |run| == |acts| + 1
    && Init(run[0])
    && (forall i | 0 <= i < |acts| :: Step(run[i], acts[i], run[i + 1]))
    && forall i | 0 <= i < |run| :: Timely(run[i])
  }

  lemma {:induction false} Reachable(run: seq<State>, acts: seq<Action>, i: nat)
    requires Execution(run, acts) && i < |run|
    ensures Inv(run[i])
  {
    if i > 0 {
      Reachable(run, acts, i - 1);
      assert Step(run[i - 1], acts[i - 1], run[i]);
      StepInv(run[i - 1], acts[i - 1]);
    }
  }

  /** A run as it comes, whatever its dequeuers' timing. */
  ghost predicate Interleaving(run: seq<State>, acts: seq<Action>) {
    |run| == |acts| + 1 && Init(run[0]) && forall i | 0 <= i < |acts| :: Step(run[i], acts[i], run[i + 1])
  }

  lemma ShortIsTimely(s: State)
    requires Inv(s) && s.opt < HALF && s.tail < HALF
    ensures Timely(s)
  {
    forall t <- s.pcs ensures TimelyPc(s, s.pcs[t]) { assert PcOk(s, t, s.pcs[t]); }
  }

  /** Timeliness is no assumption on runs that draw fewer than 2^63 tickets and publish fewer than
      2^63 elements: they are executions, however long any dequeuer sleeps. */
  lemma {:induction false} ShortRunsAreTimely(run: seq<State>, acts: seq<Action>, n: nat)
    requires Interleaving(run, acts) && n < |run| && forall i | 0 <= i <= n :: run[i].opt < HALF && run[i].tail < HALF
    ensures Execution(run[..n + 1], acts[..n])
  {
    if n > 0 {
      ShortRunsAreTimely(run, acts, n - 1);
      Reachable(run[..n], acts[..n - 1], n - 1);
      assert Step(run[n - 1], acts[n - 1], run[n]);
      StepInv(run[n - 1], acts[n - 1]);
    }
    ShortIsTimely(run[n]);
    forall i | 0 <= i < n ensures Step(run[..n + 1][i], acts[..n][i], run[..n + 1][i + 1]) {
      assert Step(run[i], acts[i], run[i + 1]);
    }
    var prefix := run[..n + 1];
    forall i | 0 <= i < n + 1 ensures Timely(prefix[i]) {
      if i < n { assert run[..n][i] == run[i]; }
    }
  }

  /** The thread is about to take elements head .. head + won. */
  ghost predicate Claims(s: State, a: Action) { a.Run? && a.thread in s.pcs && s.pcs[a.thread].Claim? }

  /** Safety: in every interleaving a claim only takes indices that the enqueuer has published. */
  lemma ClaimIsPublished(run: seq<State>, acts: seq<Action>, i: nat)
    requires Execution(run, acts) && i < |acts| && Claims(run[i], acts[i])
    ensures run[i].pcs[acts[i].thread].won > 0
    ensures run[i + 1].head == run[i].head + run[i].pcs[acts[i].thread].won <= run[i].tail
  {
    Reachable(run, acts, i);
    Reachable(run, acts, i + 1);
    assert Step(run[i], acts[i], run[i + 1]);
    assert PcOk(run[i], acts[i].thread, run[i].pcs[acts[i].thread]);
    CountSplit(run[i + 1].tickets, run[i + 1].opt);
    WinsBounded(run[i + 1].tickets, run[i + 1].tail, run[i + 1].opt);
  }

  /** headIndex never goes back. */
  lemma {:induction false} HeadNeverFalls(run: seq<State>, acts: seq<Action>, i: nat, j: nat)
    requires Execution(run, acts) && i <= j < |run|
    ensures run[i].head <= run[j].head
    decreases j - i
  {
    if i < j {
      HeadNeverFalls(run, acts, i, j - 1);
      assert Step(run[j - 1], acts[j - 1], run[j]);
    }
  }

  ghost predicate Covers(run: seq<State>, acts: seq<Action>, c: nat, index: nat)
    requires |run| == |acts| + 1 && c < |acts|
  {
    Claims(run[c], acts[c]) && run[c].head <= index < run[c + 1].head
  }

  /** Every index below the head was handed out by exactly one claim of the run. */
  lemma HandedOutOnce(run: seq<State>, acts: seq<Action>, n: nat, index: nat)
    requires Execution(run, acts) && n < |run| && index < run[n].head
    ensures exists c :: 0 <= c < n && Covers(run, acts, c, index)
    ensures forall c, d | 0 <= c < n && 0 <= d < n && Covers(run, acts, c, index) && Covers(run, acts, d, index) :: c == d
  {
    SomeClaimCovers(run, acts, n, index);
    forall c, d | 0 <= c < n && 0 <= d < n && Covers(run, acts, c, index) && Covers(run, acts, d, index) ensures c == d {
      if c < d { HeadNeverFalls(run, acts, c + 1, d); }
      if d < c { HeadNeverFalls(run, acts, d + 1, c); }
    }
  }

  lemma {:induction false} SomeClaimCovers(run: seq<State>, acts: seq<Action>, n: nat, index: nat)
    requires Execution(run, acts) && n < |run| && index < run[n].head
    ensures exists c :: 0 <= c < n && Covers(run, acts, c, index)
  {
    assert run[0].head == 0;
    assert Step(run[n - 1], acts[n - 1], run[n]);
    if index < run[n - 1].head {
      SomeClaimCovers(run, acts, n - 1, index);
      var c :| 0 <= c < n - 1 && Covers(run, acts, c, index);
      assert 0 <= c < n && Covers(run, acts, c, index);
    } else {
      assert Covers(run, acts, n - 1, index);
    }
  }

  /** The key to safety: a dequeuer's overcommit snapshot never exceeds the number of failed
      attempts with a smaller ticket. */
  lemma SnapshotCovered(run: seq<State>, acts: seq<Action>, i: nat, t: Thread)
    requires Execution(run, acts) && i < |run| && t in run[i].pcs && run[i].pcs[t].Decide?
    ensures run[i].pcs[t].my <= |run[i].tickets|
    ensures run[i].pcs[t].over <= run[i].pcs[t].my - Count(run[i].tickets, run[i].pcs[t].my, IsLive)
  {
    Reachable(run, acts, i);
    assert PcOk(run[i], t, run[i].pcs[t]);
  }

  /** Under interleaving: a caller deciding on its tickets gets just what the published elements leave over
      after the earlier tickets that have not failed, and after those earlier failures that its overcommit
      snapshot does not count.  If it counts them all, an element is withheld only from a ticket that
      comes after as many live ones as there are elements. */
  lemma DecidesByEarlier(run: seq<State>, acts: seq<Action>, i: nat, t: Thread)
    requires Execution(run, acts) && i < |acts| && acts[i] == Run(t) && t in run[i].pcs && run[i].pcs[t].Decide?
    ensures var s, pc := run[i], run[i].pcs[t];
            && pc.my <= |s.tickets| && t in run[i + 1].pcs
            && var live := Count(s.tickets, pc.my, IsLive);
               var unseen := pc.my - live - pc.over;
               var won := if s.tail > live + unseen then Min(pc.desired, s.tail - live - unseen) else 0;
               && unseen >= 0
               && run[i + 1].pcs[t] == if won < pc.desired then GiveBack(pc.my, pc.desired, won) else Claim(pc.my, won)
  {
    Reachable(run, acts, i);
    var s, pc := run[i], run[i].pcs[t];
    assert Step(s, acts[i], run[i + 1]) && PcOk(s, t, pc) && TimelyPc(s, pc);
    GrantedExact(s.tail, pc.my, pc.desired, pc.over);
    hide Granted, Available, WinsCovered;
  }

  /** And before it draws any: it leaves at once only if the tail it saw is no larger than the tickets drawn
      that have not failed and the failures it does not count. */
  lemma LeavesOrDraws(run: seq<State>, acts: seq<Action>, i: nat, t: Thread)
    requires Execution(run, acts) && i < |acts| && acts[i] == Run(t) && t in run[i].pcs && run[i].pcs[t].LoadOpt?
    ensures var s, pc := run[i], run[i].pcs[t];
            && |s.tickets| == s.opt && t in run[i + 1].pcs
            && var live := Count(s.tickets, s.opt, IsLive);
               var unseen := s.opt - live - pc.over;
               && unseen >= 0
               && run[i + 1].pcs[t] == if pc.seenTail > live + unseen
                                       then TakeTickets(Min(pc.seenTail - live - unseen, pc.max), pc.over) else Idle
  {
    Reachable(run, acts, i);
    var s, pc := run[i], run[i].pcs[t];
    assert Step(s, acts[i], run[i + 1]) && PcOk(s, t, pc) && TimelyPc(s, pc);
    CountSplit(s.tickets, s.opt);
    AvailableExact(pc.seenTail, s.opt, pc.over);
    hide Available, WinsCovered;
  }

  /** When no call is in progress the counters agree: optimistic - overcommit is the head. */
  lemma QuiescentCounters(run: seq<State>, acts: seq<Action>, i: nat)
    requires Execution(run, acts) && i < |run| && forall t <- run[i].pcs :: run[i].pcs[t] == Idle
    ensures run[i].opt - run[i].over == run[i].head <= run[i].tail
  {
    Reachable(run, acts, i);
    var s := run[i];
    forall k | 0 <= k < s.opt ensures s.tickets[k].Claimed? || s.tickets[k].Returned? {
      assert TicketOk(k, s.tickets[k], s.pcs);
    }
    SettledCounts(s.tickets, s.opt);
    CountSplit(s.tickets, s.opt);
    WinsBounded(s.tickets, s.tail, s.opt);
  }

  /** k steps of one thread, with no other thread in between. */
  ghost function Alone(s: State, t: Thread, k: nat): (s': State)
    requires t in s.pcs
    ensures t in s'.pcs
  {
    if k == 0 then s else Advance(Alone(s, t, k - 1), t)
  }

  /** A dequeue on a queue with no other call in progress takes everything that is there, up to its
      max; it comes away with nothing only if the queue is empty. */
  lemma LoneDequeue(run: seq<State>, acts: seq<Action>, i: nat, t: Thread, most: nat)
    requires Execution(run, acts) && i < |run| && (forall u <- run[i].pcs :: run[i].pcs[u] == Idle)
    requires t in run[i].pcs && most > 0
    ensures var s := run[i]; var called := Apply(s, Call(t, most));
            if s.head < s.tail
            then Alone(called, t, 6) == s.(head := s.head + Min(most, s.tail - s.head),
                                           opt := s.opt + Min(most, s.tail - s.head),
                                           tickets := Alone(called, t, 6).tickets)
            else Alone(called, t, 3) == s
  {
    QuiescentCounters(run, acts, i);
    Reachable(run, acts, i);
    if run[i].head < run[i].tail { LoneTakes(run[i], t, most); } else { LoneFails(run[i], t, most); }
  }

  /** The first three steps, which only load. */
  lemma LoneLoads(s: State, t: Thread, most: nat)
    requires t in s.pcs && s.pcs[t] == Idle && most > 0 && s.opt - s.over == s.head <= s.tail && s.tail - s.head < HALF
    ensures var s0 := Apply(s, Call(t, most));
            Alone(s0, t, 3) == if s.head < s.tail then Goto(s, t, TakeTickets(Min(most, s.tail - s.head), s.over)) else s
  {
    AvailableExact(s.tail, s.opt, s.over);
    var s0 := Apply(s, Call(t, most));
    var s1 := Goto(s, t, LoadOver(most, s.tail));
    var s2 := Goto(s, t, LoadOpt(most, s.tail, s.over));
    assert Alone(s0, t, 1) == s1;
    assert Alone(s0, t, 2) == s2;
    if s.head == s.tail { assert Alone(s0, t, 3).pcs == s.pcs; }
  }

  lemma LoneFails(s: State, t: Thread, most: nat)
    requires Inv(s) && t in s.pcs && s.pcs[t] == Idle && most > 0 && s.opt - s.over == s.head == s.tail
    ensures Alone(Apply(s, Call(t, most)), t, 3) == s
  {
    hide Inv;
    LoneLoads(s, t, most);
  }

  lemma LoneExtent(s: State)
    requires Inv(s)
    ensures s.tail - s.head < HALF
  {
    hide TicketOk, WinsCovered, PcOk;
  }

  lemma LoneTakes(s: State, t: Thread, most: nat)
    requires Inv(s) && t in s.pcs && s.pcs[t] == Idle && most > 0 && s.opt - s.over == s.head < s.tail
    ensures var called, n := Apply(s, Call(t, most)), Min(most, s.tail - s.head);
            Alone(called, t, 6) == s.(head := s.head + n, opt := s.opt + n, tickets := Alone(called, t, 6).tickets)
  {
    LoneExtent(s);
    hide Inv, TimelyPc;
    var n, s0 := Min(most, s.tail - s.head), Apply(s, Call(t, most));
    LoneLoads(s, t, most);
    GrantedExact(s.tail, s.opt, n, s.over);
    hide Granted, Available;
    var s4 := Advance(Alone(s0, t, 3), t);
    var s5 := Advance(s4, t);
    assert s5.pcs == s.pcs[t := Claim(s.opt, n)] && s5.over == s.over;
    assert Alone(s0, t, 4) == s4 && Alone(s0, t, 5) == s5 && Alone(s0, t, 6) == Advance(s5, t);
    assert Alone(s0, t, 6).pcs == s.pcs;
  }

  lemma {:induction false} SettledCounts(ts: seq<Ticket>, n: nat)
    requires n <= |ts| && forall k | 0 <= k < n :: ts[k].Claimed? || ts[k].Returned?
    ensures Count(ts, n, IsClaimed) + Count(ts, n, IsReturned) == n
  {
    if n > 0 { SettledCounts(ts, n - 1); }
  }
}
