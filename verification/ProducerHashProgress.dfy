/** When a call on the producer table returns: always, unless another thread holds the resize flag and
    the newest table is too full without the one that thread is to publish. */
module ProducerHashProgress {
  import opened ProducerHash
  import opened Options

  /** Another thread holds the resize flag. */
  ghost predicate Held(s: State, t: Id) { s.resizing.Some? && s.resizing != Some(t) }

  /** In the loop that decides where to insert, and not holding the flag. */
  predicate Looping(pc: Pc) { pc.TestHalf? || pc.TestAndSet? || pc.TestRoom? || pc.Wait? }

  ghost function Newest(s: State): (n: nat)
    requires s.tables != []
  {
    |s.tables[|s.tables| - 1]|
  }

  /** There is no room for the ticket even in the newest table, and another thread is to make more. */
  ghost predicate Blocked(s: State, t: Id)
    requires s.tables != [] && t in s.pcs
  {
    Held(s, t) && Looping(s.pcs[t]) && s.pcs[t].n >= Newest(s) / 2 + Newest(s) / 4
  }

  /** The thread will not be blocked: the flag is not another's, or it is past needing it. */
  ghost predicate Free(s: State, t: Id)
    requires s.tables != [] && t in s.pcs
  {
    var pc := s.pcs[t];
    Held(s, t) ==>
      || (Looping(pc) && pc.n < Newest(s) / 2 + Newest(s) / 4)
      || pc.Create? || Inserting(pc) || pc.Found? || pc.Copy? || pc.CopyCas? || IsStore(pc) || pc.Idle?
  }

  ghost predicate Fits(s: State, m: nat, n: nat) { m < |s.tables| && n < ThreeQuarters(|s.tables[m]|) }

  /** Where in the call the thread is, counted down. */
  ghost function Phase(s: State, t: Id): nat
    requires t in s.pcs
  {
    match s.pcs[t]
    case Idle => 0
    case InsertStore(_, _, _) => 1
    case Insert(_, _, _) => 2
    case InsertCas(_, _, _) => 2
    case Create(_, _) => 3
    case TestRoom(m, n) => if Fits(s, m, n) then 4 else 11
    case Clear(m, n) => if Fits(s, m, n) then 5 else 14
    case Publish(_, _) => 6
    case Reload(_) => 7
    case TestAndSet(m, n) => if Held(s, t) && !Fits(s, m, n) then 12 else 8
    case TestHalf(m, n) => if Held(s, t) && !Fits(s, m, n) then 13 else 9
    case Wait(_) => 10
    case CopyStore(_, _, _) => 15
    case Copy(_, _, _) => 16
    case CopyCas(_, _, _) => 16
    case Found(_, _, _) => 17
    case FetchAdd(_) => 17
    case Probe(_, _, _) => 18
    case Load => 19
  }

  /** The tables still to be searched, and what is left of the present one. */
  function TablesLeft(pc: Pc): nat { if pc.Probe? then pc.table else 0 }

  ghost function SlotsLeft(s: State, pc: Pc): int {
    match pc
    case Probe(_, h, k) => if h < |s.tables| then |s.tables[h]| - k else 0
    case Copy(m, _, k) => if m < |s.tables| then 2 * (|s.tables[m]| - k) + 1 else 0
    case CopyCas(m, _, k) => if m < |s.tables| then 2 * (|s.tables[m]| - k) else 0
    case Insert(m, _, k) => if m < |s.tables| then 2 * (|s.tables[m]| - k) + 1 else 0
    case InsertCas(m, _, k) => if m < |s.tables| then 2 * (|s.tables[m]| - k) else 0
    case _ => 0
  }

  ghost predicate Nearer(s: State, s': State, t: Id)
    requires t in s.pcs && t in s'.pcs
  {
    var pc, pc' := s.pcs[t], s'.pcs[t];
    || Phase(s', t) < Phase(s, t)
    || (Phase(s', t) == Phase(s, t)
        && (|| TablesLeft(pc') < TablesLeft(pc)
            || (TablesLeft(pc') == TablesLeft(pc) && SlotsLeft(s', pc') < SlotsLeft(s, pc))))
  }

  lemma SearchNearer(s: State, t: Id)
    requires t in s.pcs && Defined(s, t) && (s.pcs[t].Load? || s.pcs[t].Probe?)
    ensures t in Run(s, t).pcs && Run(s, t).tables != [] && Nearer(s, Run(s, t), t) && (Free(s, t) ==> Free(Run(s, t), t))
  {
    hide At, Here, ThreeQuarters, Half, Passed;
  }

  lemma FoundNearer(s: State, t: Id)
    requires t in s.pcs && Defined(s, t) && (s.pcs[t].Found? || s.pcs[t].FetchAdd?)
    ensures t in Run(s, t).pcs && Run(s, t).tables != [] && Nearer(s, Run(s, t), t) && (Free(s, t) ==> Free(Run(s, t), t))
  {
    hide At, Here, ThreeQuarters, Half, Passed;
  }

  lemma CopyNearer(s: State, t: Id)
    requires t in s.pcs && Defined(s, t) && (s.pcs[t].Copy? || s.pcs[t].CopyCas?)
    requires s.pcs[t].main < |s.tables|
    ensures t in Run(s, t).pcs && Run(s, t).tables != [] && Nearer(s, Run(s, t), t) && (Free(s, t) ==> Free(Run(s, t), t))
  {
    hide At, Here, ThreeQuarters, Half, Passed;
  }

  lemma InsertNearer(s: State, t: Id)
    requires t in s.pcs && Defined(s, t) && (s.pcs[t].Insert? || s.pcs[t].InsertCas?)
    requires s.pcs[t].main < |s.tables|
    ensures t in Run(s, t).pcs && Run(s, t).tables != [] && Nearer(s, Run(s, t), t) && (Free(s, t) ==> Free(Run(s, t), t))
  {
    hide At, Here, ThreeQuarters, Half, Passed;
  }

  lemma LastNearer(s: State, t: Id)
    requires t in s.pcs && Defined(s, t) && (s.pcs[t].Create? || s.pcs[t].CopyStore? || s.pcs[t].InsertStore?)
    ensures t in Run(s, t).pcs && Run(s, t).tables != [] && Nearer(s, Run(s, t), t) && (Free(s, t) ==> Free(Run(s, t), t))
  {
    hide At, Here, ThreeQuarters, Half, Passed;
  }

  lemma TestNearer(s: State, t: Id)
    requires t in s.pcs && Defined(s, t) && (s.pcs[t].TestHalf? || s.pcs[t].TestRoom?) && Free(s, t) && s.resizing != Some(t)
    requires s.pcs[t].TestAndSet? || s.pcs[t].Clear? ==> s.pcs[t].main < |s.tables|
    ensures t in Run(s, t).pcs && Run(s, t).tables != [] && Nearer(s, Run(s, t), t) && Free(Run(s, t), t)
  {
    hide At, Here, Passed;
  }

  lemma WaitNearer(s: State, t: Id)
    requires t in s.pcs && Defined(s, t) && (s.pcs[t].TestAndSet? || s.pcs[t].Wait?) && Free(s, t) && s.resizing != Some(t)
    requires s.pcs[t].TestAndSet? || s.pcs[t].Clear? ==> s.pcs[t].main < |s.tables|
    ensures t in Run(s, t).pcs && Run(s, t).tables != [] && Nearer(s, Run(s, t), t) && Free(Run(s, t), t)
  {
    hide At, Here, Passed;
  }

  lemma ReloadNearer(s: State, t: Id)
    requires t in s.pcs && Defined(s, t) && (s.pcs[t].Reload? || s.pcs[t].Clear?) && Free(s, t) && s.resizing == Some(t)
    requires s.pcs[t].TestAndSet? || s.pcs[t].Clear? ==> s.pcs[t].main < |s.tables|
    ensures t in Run(s, t).pcs && Run(s, t).tables != [] && Nearer(s, Run(s, t), t) && Free(Run(s, t), t)
  {
    hide At, Here, Passed;
  }

  lemma PublishNearer(s: State, t: Id)
    requires t in s.pcs && Defined(s, t) && (s.pcs[t].Publish?) && Free(s, t) && s.resizing == Some(t)
    requires s.pcs[t].TestAndSet? || s.pcs[t].Clear? ==> s.pcs[t].main < |s.tables|
    ensures t in Run(s, t).pcs && Run(s, t).tables != [] && Nearer(s, Run(s, t), t) && Free(Run(s, t), t)
  {
    hide At, Here, Passed;
  }

  lemma StepNearer(s: State, t: Id)
    requires Inv(s) && t in s.pcs && s.pcs[t] != Idle && Free(s, t)
    ensures Defined(s, t) && Inv(Run(s, t)) && t in Run(s, t).pcs && Nearer(s, Run(s, t), t) && Free(Run(s, t), t)
  {
    StepInv(s, t);
    OfThread(s, t);
    FlagIs(s, t);
    hide Inv, Defined, Run, Nearer, Free, PcOk, TicketsOk, Contains, Held;
    match s.pcs[t]
    case Load | Probe(_, _, _) => SearchNearer(s, t);
    case Found(_, _, _) | FetchAdd(_) => FoundNearer(s, t);
    case Copy(_, _, _) | CopyCas(_, _, _) => CopyNearer(s, t);
    case Insert(_, _, _) | InsertCas(_, _, _) => InsertNearer(s, t);
    case Create(_, _) | CopyStore(_, _, _) | InsertStore(_, _, _) => LastNearer(s, t);
    case TestHalf(_, _) | TestRoom(_, _) => TestNearer(s, t);
    case TestAndSet(_, _) | Wait(_) => WaitNearer(s, t);
    case Reload(_) | Clear(_, _) => ReloadNearer(s, t);
    case Publish(_, _) => PublishNearer(s, t);
    case Idle => assert false;
  }

  lemma FlagIs(s: State, t: Id)
    requires Inv(s) && t in s.pcs
    ensures s.resizing == Some(t) <==> Resizing(s.pcs[t])
    ensures var pc := s.pcs[t]; !pc.Idle? && !pc.Load? && !pc.Reload? && !pc.Wait? ==> pc.main < |s.tables|
    ensures SlotsLeft(s, s.pcs[t]) >= 0
  {
    OfThread(s, t);
    var c := ProbeCursor(s.pcs[t]);
    if c.Some? { ProbeEnds(s, t, c.value.0, c.value.1); }
    hide Inv, TicketsOk, Contains, Passed, NotAbove;
  }

  // ----- Running alone -----

  /** Thread t has got a producer, and nothing else was got. */
  ghost predicate OneResult(s: State, s': State, t: Id) {
    |s'.results| == |s.results| + 1 && s'.results[..|s.results|] == s.results && s'.results[|s.results|].0 == t
  }

  /** Whether a call ends is whether it yields a producer. */
  lemma EndsWithResult(s: State, t: Id)
    requires t in s.pcs && Defined(s, t) && s.pcs[t] != Idle
    ensures t in Run(s, t).pcs
    ensures Run(s, t).pcs[t] == Idle ==> IsStore(s.pcs[t]) || (s.pcs[t].Found? && s.pcs[t].table == s.pcs[t].main)
    ensures if Run(s, t).pcs[t] == Idle then OneResult(s, Run(s, t), t) else Run(s, t).results == s.results
  {
    hide At, ThreeQuarters, Half;
    if s.pcs[t].Found? && s.pcs[t].table == s.pcs[t].main {
      var pc := s.pcs[t];
      assert Run(s, t).results == s.results + [(t, Here(s, t, pc.table, pc.k).value.value)];
    }
    if IsStore(s.pcs[t]) { assert Run(s, t).results == s.results + [(t, s.pcs[t].value)]; }
  }

  lemma NextIsOk(s: State, t: Id)
    requires Inv(s) && t in s.pcs
    ensures Defined(s, t) && Inv(Run(s, t)) && t in Run(s, t).pcs
  {
    StepInv(s, t);
    hide Inv;
    if s.pcs[t] != Idle {
      EndsWithResult(s, t);
      hide Run;
    }
  }

  ghost predicate Lives(s: State, t: Id) { Inv(s) && t in s.pcs }

  /** After n steps of one thread. */
  ghost function AloneFor(s: State, t: Id, n: nat): (s': State)
    requires Lives(s, t)
    ensures Lives(s', t)
    decreases n
  {
    if n == 0 then s
    else
      NextIsOk(s, t);
      AloneFor(Run(s, t), t, n - 1)
  }

  /** A call that is not blocked returns, if its thread runs alone: from any reachable state, whatever
      the other threads have left unfinished. */
  lemma {:induction false} AloneReturns(s: State, t: Id) returns (n: nat)
    requires Lives(s, t) && s.pcs[t] != Idle && s.tables != [] && Free(s, t)
    ensures AloneFor(s, t, n).pcs[t] == Idle && OneResult(s, AloneFor(s, t, n), t)
    decreases Phase(s, t), TablesLeft(s.pcs[t]), SlotsLeft(s, s.pcs[t])
  {
    hide Lives, Inv, Defined, Run, Free, Phase, TablesLeft, SlotsLeft, AloneFor, OneResult;
    OneStep(s, t);
    AloneOneMore(s, t, 0);
    var s' := Run(s, t);
    n := 0;
    if s'.pcs[t] != Idle { n := AloneReturns(s', t); }
    if s'.results == s.results { ResultLater(s, s', AloneFor(s', t, n), t); }
    AloneOneMore(s, t, n);
    n := n + 1;
  }

  /** The step, and what it comes to. */
  lemma OneStep(s: State, t: Id)
    requires Lives(s, t) && s.pcs[t] != Idle && s.tables != [] && Free(s, t)
    ensures Defined(s, t) && Lives(Run(s, t), t) && t in Run(s, t).pcs && Run(s, t).tables != [] && Free(Run(s, t), t)
    ensures Nearer(s, Run(s, t), t) && SlotsLeft(s, s.pcs[t]) >= 0
    ensures if Run(s, t).pcs[t] == Idle then OneResult(s, Run(s, t), t) else Run(s, t).results == s.results
  {
    StepNearer(s, t);
    FlagIs(s, t);
    EndsWithResult(s, t);
    hide Inv, Defined, Run, Free, Nearer, SlotsLeft, OneResult;
  }

  lemma ResultLater(s: State, s': State, end: State, t: Id)
    requires s'.results == s.results
    ensures OneResult(s', end, t) <==> OneResult(s, end, t)
  {
  }

  lemma AloneOneMore(s: State, t: Id, n: nat)
    requires Lives(s, t)
    ensures Defined(s, t) && Lives(Run(s, t), t) && AloneFor(s, t, n + 1) == AloneFor(Run(s, t), t, n)
    ensures AloneFor(Run(s, t), t, 0) == Run(s, t)
  {
    NextIsOk(s, t);
    hide Inv, Run, Defined;
  }

  // ----- Blocked -----

  lemma TestBlocked(s: State, t: Id)
    requires t in s.pcs && Defined(s, t) && Blocked(s, t) && (s.pcs[t].TestHalf? || s.pcs[t].TestRoom?)
    requires |s.tables[s.pcs[t].main]| <= Newest(s)
    ensures t in Run(s, t).pcs && Run(s, t).tables != [] && Blocked(Run(s, t), t)
  {
    hide Here, At;
  }

  lemma WaitBlocked(s: State, t: Id)
    requires t in s.pcs && Defined(s, t) && Blocked(s, t) && (s.pcs[t].TestAndSet? || s.pcs[t].Wait?)
    ensures t in Run(s, t).pcs && Run(s, t).tables != [] && Blocked(Run(s, t), t)
  {
    hide Here, At;
  }

  lemma StaysBlocked(s: State, t: Id)
    requires Lives(s, t) && s.tables != [] && Blocked(s, t)
    ensures Defined(s, t) && Lives(Run(s, t), t) && Run(s, t).tables != [] && Blocked(Run(s, t), t)
  {
    NextIsOk(s, t);
    SizesAre(s);
    hide Inv, Run, Newest, ThreeQuarters, Held;
    if s.pcs[t].TestHalf? || s.pcs[t].TestRoom? { TestBlocked(s, t); } else { WaitBlocked(s, t); }
  }

  lemma SizesAre(s: State)
    requires Inv(s)
    ensures s.tables != [] && forall h | 0 <= h < |s.tables| :: |s.tables[h]| <= Newest(s)
  {
    forall h | 0 <= h < |s.tables| ensures |s.tables[h]| <= Newest(s) { SizesGrow(s, h, |s.tables| - 1); }
  }

  /** A blocked thread goes round as long as it runs alone. */
  lemma {:induction false} BlockedForever(s: State, t: Id, n: nat)
    requires Lives(s, t) && s.tables != [] && Blocked(s, t)
    ensures var s' := AloneFor(s, t, n); s'.tables != [] && Blocked(s', t)
    decreases n
  {
    hide Inv;
    if n > 0 {
      StaysBlocked(s, t);
      hide Blocked, Run;
      BlockedForever(Run(s, t), t, n - 1);
    }
  }

  /** So a thread in the loop, running alone, returns if and only if it is not blocked: the flag is free
      or its own, or the newest table has room for its ticket. */
  lemma ReturnsUnlessBlocked(s: State, t: Id)
    requires Lives(s, t) && s.tables != [] && Looping(s.pcs[t])
    ensures (exists n :: AloneFor(s, t, n).pcs[t] == Idle) <==> !Blocked(s, t)
  {
    if Blocked(s, t) {
      forall n ensures AloneFor(s, t, n).pcs[t] != Idle { BlockedForever(s, t, n); }
    } else {
      var n := AloneReturns(s, t);
    }
  }

  // ----- What a call leaves behind -----

  lemma StoreReturns(s: State, t: Id)
    requires t in s.pcs && Defined(s, t) && IsStore(s.pcs[t])
    ensures s.pcs[t].main < |Run(s, t).tables| && Contains(Run(s, t).tables[s.pcs[t].main], t)
  {
    var pc := s.pcs[t];
    assert Run(s, t).tables[pc.main][At(s, t, pc.main, pc.k)] == Taken(t, pc.k, Some(pc.value));
    hide At;
  }

  /** A call that returns leaves its id in the table it took as the main one, so that the next call finds
      it there. */
  lemma ReturnsInMain(s: State, t: Id)
    requires Lives(s, t) && s.pcs[t] != Idle && s.pcs[t] != Load
    requires Defined(s, t) && t in Run(s, t).pcs && Run(s, t).pcs[t] == Idle
    ensures var pc := s.pcs[t]; !pc.Reload? && !pc.Wait? && pc.main < |Run(s, t).tables| && Contains(Run(s, t).tables[pc.main], t)
  {
    hide Inv, Run, Defined;
    var pc := s.pcs[t];
    if IsStore(pc) {
      StoreReturns(s, t);
    } else if pc.Found? && pc.table == pc.main {
      FoundReturns(s, t);
    } else {
      EndsWithResult(s, t);
    }
  }

  lemma FoundReturns(s: State, t: Id)
    requires Lives(s, t) && Defined(s, t) && s.pcs[t].Found? && s.pcs[t].table == s.pcs[t].main
    ensures s.pcs[t].main < |Run(s, t).tables| && Contains(Run(s, t).tables[s.pcs[t].main], t)
  {
    OfThread(s, t);
    hide Inv, TicketsOk, NotAbove, Passed;
    var pc := s.pcs[t];
    assert Here(s, t, pc.main, pc.k).Taken? && Here(s, t, pc.main, pc.k).id == t;
  }

  predicate Late(pc: Pc) { pc.Clear? || pc.TestRoom? || pc.Create? || Inserting(pc) || pc.InsertStore? }

  /** Past the decision, the newest table is more than twice as large as the ticket. */
  ghost predicate Sized(s: State, t: Id)
    requires s.tables != [] && t in s.pcs
  {
    Late(s.pcs[t]) ==> t in s.tickets && s.tickets[t] < Newest(s) / 2
  }

  lemma SearchSized(s: State, t: Id)
    requires t in s.pcs && Defined(s, t) && (s.pcs[t].Load? || s.pcs[t].Probe?)
    ensures t in Run(s, t).pcs && Run(s, t).tables != [] && Sized(Run(s, t), t) && Run(s, t).resizing == s.resizing
  {
    hide At, Here, ThreeQuarters, Half;
  }

  lemma CopySized(s: State, t: Id)
    requires t in s.pcs && Defined(s, t)
    requires var pc := s.pcs[t]; pc.Idle? || pc.Found? || pc.Copy? || pc.CopyCas? || pc.CopyStore? || pc.FetchAdd?
    ensures t in Run(s, t).pcs && Run(s, t).tables != [] && Sized(Run(s, t), t) && Run(s, t).resizing == s.resizing
  {
    hide At, Here, ThreeQuarters, Half;
  }

  lemma DecidingSized(s: State, t: Id)
    requires t in s.pcs && Defined(s, t) && !Late(s.pcs[t]) && Adding(s.pcs[t]) && !Held(s, t)
    requires t in s.tickets && s.tickets[t] == s.pcs[t].n && (s.resizing == Some(t) <==> Resizing(s.pcs[t]))
    requires s.pcs[t].TestHalf? ==> |s.tables[s.pcs[t].main]| <= Newest(s)
    ensures t in Run(s, t).pcs && Run(s, t).tables != [] && Sized(Run(s, t), t) && !Held(Run(s, t), t)
  {
    hide At, Here, ThreeQuarters;
  }

  lemma RoomSized(s: State, t: Id)
    requires t in s.pcs && Defined(s, t) && Sized(s, t) && !Held(s, t)
    requires var pc := s.pcs[t]; pc.Clear? || pc.TestRoom? || pc.Create?
    ensures t in Run(s, t).pcs && Run(s, t).tables != [] && Sized(Run(s, t), t) && !Held(Run(s, t), t)
  {
    hide At, Here, ThreeQuarters, Half;
  }

  lemma InsertSized(s: State, t: Id)
    requires t in s.pcs && Defined(s, t) && Sized(s, t)
    requires var pc := s.pcs[t]; Inserting(pc) || pc.InsertStore?
    ensures t in Run(s, t).pcs && Run(s, t).tables != [] && Sized(Run(s, t), t) && Run(s, t).resizing == s.resizing
  {
    hide At, Here, ThreeQuarters, Half;
  }

  lemma StepSized(s: State, t: Id)
    requires Lives(s, t) && s.tables != [] && Sized(s, t) && !Held(s, t)
    ensures Defined(s, t) && Lives(Run(s, t), t) && Run(s, t).tables != [] && !Held(Run(s, t), t) && Sized(Run(s, t), t)
  {
    NextIsOk(s, t);
    OfThread(s, t);
    SizesAre(s);
    hide Inv, Run, Sized, Contains, Passed, NotAbove, TicketsOk;
    var pc := s.pcs[t];
    if pc.Clear? || pc.TestRoom? || pc.Create? { RoomSized(s, t); }
    else if Late(pc) { InsertSized(s, t); }
    else if Adding(pc) { DecidingSized(s, t); }
    else if pc.Load? || pc.Probe? { SearchSized(s, t); }
    else { CopySized(s, t); }
  }

  /** A call that runs alone, the flag free, adds its key only when the newest table is more than twice as
      large as the ticket: if there is no such table yet, it publishes one. */
  lemma {:induction false} AloneSized(s: State, t: Id, n: nat)
    requires Lives(s, t) && s.tables != [] && Sized(s, t) && !Held(s, t)
    ensures var s' := AloneFor(s, t, n); s'.tables != [] && Sized(s', t)
    decreases n
  {
    hide Inv, Sized;
    if n > 0 {
      StepSized(s, t);
      hide Run, Held;
      AloneSized(Run(s, t), t, n - 1);
    }
  }

  // ----- The count -----

  ghost predicate HasTicket(s: State, n: nat) { exists t :: t in s.tickets && s.tickets[t] == n }

  lemma PutKeeps(s: State, t: Id, h: nat, k: nat, slot: Slot)
    requires t in s.hashed && HasTable(s, h)
    ensures var s' := Put(s, t, h, k, slot);
            s'.pcs == s.pcs && s'.count == s.count && s'.tickets == s.tickets && |s'.tables| == |s.tables| && forall g | 0 <= g < |s.tables| :: |s'.tables[g]| == |s.tables[g]|
  {
    hide At;
  }

  lemma AddingKeepsCount(s: State, t: Id)
    requires t in s.pcs && Defined(s, t) && Adding(s.pcs[t])
    ensures Run(s, t).count == s.count && Run(s, t).tickets == s.tickets
  {
    hide At, Here, ThreeQuarters, Half, NewCapacity;
  }

  lemma SearchingKeepsCount(s: State, t: Id)
    requires t in s.pcs && Defined(s, t) && !Adding(s.pcs[t]) && !s.pcs[t].FetchAdd?
    ensures Run(s, t).count == s.count && Run(s, t).tickets == s.tickets
  {
    var pc := s.pcs[t];
    if IsStore(pc) { PutKeeps(s, t, pc.main, pc.k, Taken(t, pc.k, Some(pc.value))); }
    if pc.CopyCas? || pc.InsertCas? { PutKeeps(s, t, pc.main, pc.k, Taken(t, pc.k, None)); }
    hide At, Here, Put, ThreeQuarters, Half, NewCapacity;
  }

  lemma TicketsOfStep(s: State, t: Id)
    requires t in s.pcs && Defined(s, t)
    ensures if s.pcs[t].FetchAdd? then Run(s, t).count == s.count + 1 && Run(s, t).tickets == s.tickets[t := s.count + 1]
            else Run(s, t).count == s.count && Run(s, t).tickets == s.tickets
  {
    if s.pcs[t].FetchAdd? {
    } else if Adding(s.pcs[t]) {
      AddingKeepsCount(s, t);
    } else {
      SearchingKeepsCount(s, t);
    }
  }

  lemma StepTicket(s: State, t: Id, n: nat)
    requires t in s.pcs && Defined(s, t) && (s.pcs[t].FetchAdd? ==> t !in s.tickets)
    requires n <= s.count ==> HasTicket(s, n)
    ensures n <= Run(s, t).count ==> HasTicket(Run(s, t), n)
  {
    TicketsOfStep(s, t);
    hide Run, Defined;
    if n <= s.count {
      var u :| u in s.tickets && s.tickets[u] == n;
      assert u in Run(s, t).tickets && Run(s, t).tickets[u] == n;
    } else if s.pcs[t].FetchAdd? {
      assert t in Run(s, t).tickets && Run(s, t).tickets[t] == s.count + 1;
    }
  }

  lemma LastStep(run: seq<State>, who: seq<Id>, i: nat)
    requires Execution(run, who) && 0 < i < |run| && Inv(run[i - 1])
    ensures |run| == |who| + 1 && who[i - 1] in run[i - 1].pcs && Defined(run[i - 1], who[i - 1])
    ensures run[i] == Run(run[i - 1], who[i - 1])
    ensures run[i - 1].pcs[who[i - 1]].FetchAdd? ==> who[i - 1] !in run[i - 1].tickets
  {
    hide Inv, Run, Defined, Init, TicketsOk, Passed, NotAbove, Here;
    OfThread(run[i - 1], who[i - 1]);
  }

  /** The count is the number of threads that have added themselves: every number up to it is the ticket
      of one of them. */
  lemma {:induction false} CountIsExact(run: seq<State>, who: seq<Id>, i: nat, n: nat)
    requires Execution(run, who) && i < |run| && 1 <= n <= run[i].count
    ensures HasTicket(run[i], n)
    decreases i
  {
    if i > 0 {
      Reachable(run, who, i - 1);
      LastStep(run, who, i);
      hide *;
      if n <= run[i - 1].count { CountIsExact(run, who, i - 1, n); }
      StepTicket(run[i - 1], who[i - 1], n);
    }
  }

  // ----- Space -----

  lemma SizesOfStep(s: State, t: Id)
    requires t in s.pcs && Defined(s, t) && !s.pcs[t].Publish?
    ensures |Run(s, t).tables| == |s.tables| && forall h | 0 <= h < |s.tables| :: |Run(s, t).tables[h]| == |s.tables[h]|
  {
    var pc := s.pcs[t];
    if IsStore(pc) { PutKeeps(s, t, pc.main, pc.k, Taken(t, pc.k, Some(pc.value))); }
    if pc.CopyCas? || pc.InsertCas? { PutKeeps(s, t, pc.main, pc.k, Taken(t, pc.k, None)); }
    hide At, Here, Put, ThreeQuarters, Half;
  }

  lemma LoopingPcs(s: State, t: Id)
    requires t in s.pcs && Defined(s, t) && Looping(s.pcs[t])
    ensures t in Run(s, t).pcs && Run(s, t).pcs == s.pcs[t := Run(s, t).pcs[t]]
    ensures Run(s, t).pcs[t].Publish? ==> s.pcs[t].Reload?
  {
    hide At, Here, Put, ThreeQuarters, Half, NewCapacity;
  }

  lemma ResizingPcs(s: State, t: Id)
    requires t in s.pcs && Defined(s, t) && (Resizing(s.pcs[t]) || s.pcs[t].Create?)
    ensures t in Run(s, t).pcs && Run(s, t).pcs == s.pcs[t := Run(s, t).pcs[t]]
    ensures Run(s, t).pcs[t].Publish? ==> s.pcs[t].Reload?
  {
    hide At, Here, Put, ThreeQuarters, Half, NewCapacity;
  }

  lemma SearchingPcs(s: State, t: Id)
    requires t in s.pcs && Defined(s, t) && !Adding(s.pcs[t])
    ensures t in Run(s, t).pcs && Run(s, t).pcs == s.pcs[t := Run(s, t).pcs[t]]
    ensures Run(s, t).pcs[t].Publish? ==> s.pcs[t].Reload?
  {
    var pc := s.pcs[t];
    if IsStore(pc) { PutKeeps(s, t, pc.main, pc.k, Taken(t, pc.k, Some(pc.value))); }
    if pc.CopyCas? || pc.InsertCas? { PutKeeps(s, t, pc.main, pc.k, Taken(t, pc.k, None)); }
    hide At, Here, Put, ThreeQuarters, Half, NewCapacity;
  }

  lemma TicketBound(s: State, t: Id)
    requires Inv(s) && t in s.pcs && s.pcs[t].Reload?
    ensures s.pcs[t].n <= s.count
  {
    OfThread(s, t);
    hide Inv;
  }

  lemma PublishFromReload(s: State, t: Id)
    requires t in s.pcs && Defined(s, t) && s.pcs[t].Reload? && t in Run(s, t).pcs && Run(s, t).pcs[t].Publish?
    ensures var pc := Run(s, t).pcs[t];
            pc.n == s.pcs[t].n && pc.main == |s.tables| - 1 && pc.n >= Newest(s) / 2
  {
    hide At, Here, ThreeQuarters;
  }

  /** A table is published only for more threads than a quarter of it. */
  ghost predicate Compact(s: State) {
    && (forall h | 1 <= h < |s.tables| :: |s.tables[h]| / 4 <= s.count)
    && (forall t <- s.pcs | s.pcs[t].Publish? ::
          s.pcs[t].main < |s.tables| && |s.tables[s.pcs[t].main]| / 2 <= s.pcs[t].n <= s.count)
  }

  lemma StepCompact(s: State, t: Id)
    requires Inv(s) && t in s.pcs && Compact(s)
    ensures Defined(s, t) && Compact(Run(s, t))
  {
    hide Inv, Run, Defined, Compact, Lives;
    NextIsOk(s, t);
    var pc, s' := s.pcs[t], Run(s, t);
    TicketsOfStep(s, t);
    if Looping(pc) { LoopingPcs(s, t); } else if Adding(pc) { ResizingPcs(s, t); } else { SearchingPcs(s, t); }
    if pc.Reload? { TicketBound(s, t); }
    if s'.pcs[t].Publish? { PublishFromReload(s, t); }
    if pc.Publish? { PublishCompact(s, t); } else { SizesOfStep(s, t); }
    CompactKept(s, s', t);
  }

  lemma CompactKept(s: State, s': State, t: Id)
    requires Compact(s) && t in s.pcs && t in s'.pcs && s'.pcs == s.pcs[t := s'.pcs[t]] && s.count <= s'.count
    requires |s.tables| <= |s'.tables| <= |s.tables| + 1 && forall h | 0 <= h < |s.tables| :: |s'.tables[h]| == |s.tables[h]|
    requires |s'.tables| == |s.tables| + 1 ==> |s'.tables[|s.tables|]| / 4 <= s'.count
    requires s'.pcs[t].Publish? ==>
               s'.pcs[t].main < |s.tables| && |s.tables[s'.pcs[t].main]| / 2 <= s'.pcs[t].n <= s'.count
    ensures Compact(s')
  {
  }

  lemma PublishCompact(s: State, t: Id)
    requires t in s.pcs && Defined(s, t) && s.pcs[t].Publish? && Compact(s)
    ensures |Run(s, t).tables| == |s.tables| + 1 && forall h | 0 <= h < |s.tables| :: Run(s, t).tables[h] == s.tables[h]
    ensures |Run(s, t).tables[|s.tables|]| / 4 <= s.pcs[t].n <= s.count
  {
  }

  /** In every reachable state every table but the first is at most four times as large as the number of
      threads that have added themselves. */
  lemma {:induction false} SpaceBound(run: seq<State>, who: seq<Id>, i: nat)
    requires Execution(run, who) && i < |run|
    ensures Compact(run[i])
    decreases i
  {
    if i > 0 {
      SpaceBound(run, who, i - 1);
      Reachable(run, who, i - 1);
      LastStep(run, who, i);
      hide *;
      StepCompact(run[i - 1], who[i - 1]);
    }
  }
}
