module ProducerHash {
  /* The table that finds or adds a thread's implicit producer (src/concurrentqueue.h): a chain of
     open-addressing tables that are never emptied, each published by whoever holds the resize flag.

     One transition is one access to shared memory.  Allocation succeeds, and no thread exits. */

  import BlockIndex
  import opened Options

  type Id = nat
  type Producer = nat

  /** `steps` is history: how far from its hash the key was put. */
  datatype Slot = Empty | Taken(id: Id, steps: nat, value: Option<Producer>)

  type Table = seq<Slot>

  datatype Pc =
    | Idle
    | Load
    | Probe(main: nat, table: nat, k: nat)                     // looking for the id, main first
    | Found(main: nat, table: nat, k: nat)
    | Copy(main: nat, value: Producer, k: nat)                 // lazily adding it to main
    | CopyCas(main: nat, value: Producer, k: nat)
    | CopyStore(main: nat, value: Producer, k: nat)
    | FetchAdd(main: nat)
    | TestHalf(main: nat, n: nat)
    | TestAndSet(main: nat, n: nat)
    | Reload(n: nat)                                           // holding the resize flag
    | Publish(main: nat, n: nat)
    | Clear(main: nat, n: nat)
    | TestRoom(main: nat, n: nat)
    | Wait(n: nat)
    | Create(main: nat, n: nat)
    | Insert(main: nat, value: Producer, k: nat)
    | InsertCas(main: nat, value: Producer, k: nat)
    | InsertStore(main: nat, value: Producer, k: nat)

  /** `tables` is the chain, oldest first; the flag's owner, tickets, homes, places and results are history. */
  datatype State = State(
    tables: seq<Table>, count: nat, resizing: Option<Id>, made: nat,
    pcs: map<Id, Pc>, hashed: map<Id, nat>,
    tickets: map<Id, nat>, homes: map<Id, Producer>, places: map<Id, nat>, results: seq<(Id, Producer)>)

  const INITIAL_HASH_SIZE: nat := 32

  function Position(hash: nat, k: nat, capacity: nat): (p: nat)
    requires capacity > 0
    ensures p < capacity
  {
    (hash + k) % capacity
  }

  function Half(capacity: nat): nat { capacity / 2 }
  function ThreeQuarters(capacity: nat): nat { capacity / 2 + capacity / 4 }

  /** Doubled until the count is below half, and no further. */
  function NewCapacity(capacity: nat, n: nat): (c: nat)
    requires capacity > 1
    ensures c >= capacity && n < c / 2 && (c > capacity ==> c >= 2 * capacity && n >= c / 4)
    decreases n - Half(capacity)
  {
    if n < Half(capacity) then capacity else NewCapacity(2 * capacity, n)
  }

  // ----- Transitions -----

  ghost predicate HasTable(s: State, h: nat) { h < |s.tables| && |s.tables[h]| > 1 }

  ghost predicate Defined(s: State, t: Id) {
    && t in s.pcs && t in s.hashed && s.tables != []
    && match s.pcs[t]
       case Probe(m, h, _) => HasTable(s, h)
       case Found(m, h, k) => HasTable(s, h) && Here(s, t, h, k).Taken? && Here(s, t, h, k).value.Some?
       case Copy(m, _, _) => HasTable(s, m)
       case CopyCas(m, _, _) => HasTable(s, m)
       case CopyStore(m, _, k) => HasTable(s, m) && Here(s, t, m, k).Taken?
       case TestHalf(m, _) => HasTable(s, m)
       case Reload(_) => HasTable(s, |s.tables| - 1)
       case Publish(m, _) => HasTable(s, m)
       case TestRoom(m, _) => HasTable(s, m)
       case Insert(m, _, _) => HasTable(s, m)
       case InsertCas(m, _, _) => HasTable(s, m)
       case InsertStore(m, _, k) => HasTable(s, m) && Here(s, t, m, k).Taken?
       case _ => true
  }

  /** The slot the thread is at after k probes of table h. */
  ghost function At(s: State, t: Id, h: nat, k: nat): (p: nat)
    requires t in s.hashed && HasTable(s, h)
    ensures p < |s.tables[h]|
  {
    Position(s.hashed[t], k, |s.tables[h]|)
  }

  ghost function Here(s: State, t: Id, h: nat, k: nat): Slot
    requires t in s.hashed && HasTable(s, h)
  {
    s.tables[h][At(s, t, h, k)]
  }

  ghost function Put(s: State, t: Id, h: nat, k: nat, slot: Slot): State
    requires t in s.hashed && HasTable(s, h)
  {
    s.(tables := s.tables[h := s.tables[h][At(s, t, h, k) := slot]])
  }

  ghost function Goto(s: State, t: Id, pc: Pc): State { s.(pcs := s.pcs[t := pc]) }

  ghost function Return(s: State, t: Id, v: Producer): State {
    s.(pcs := s.pcs[t := Idle], results := s.results + [(t, v)])
  }

  ghost function Run(s: State, t: Id): State
    requires Defined(s, t)
  {
    var newest := |s.tables| - 1;
    match s.pcs[t]
    case Idle => Goto(s, t, Load)
    case Load => Goto(s, t, Probe(newest, newest, 0))
    case Probe(m, h, k) =>
      var slot := Here(s, t, h, k);
      if slot.Taken? && slot.id == t then Goto(s, t, Found(m, h, k))
      else if slot.Taken? then Goto(s, t, Probe(m, h, k + 1))
      else if h > 0 then Goto(s, t, Probe(m, h - 1, 0))
      else Goto(s, t, FetchAdd(m))
    case Found(m, h, k) =>
      var v := Here(s, t, h, k).value.value;
      if h == m then Return(s, t, v) else Goto(s, t, Copy(m, v, 0))
    case Copy(m, v, k) => Goto(s, t, if Here(s, t, m, k).Empty? then CopyCas(m, v, k) else Copy(m, v, k + 1))
    case CopyCas(m, v, k) =>
      if Here(s, t, m, k).Empty? then Goto(Put(s, t, m, k, Taken(t, k, None)), t, CopyStore(m, v, k))
      else Goto(s, t, Copy(m, v, k + 1))
    case CopyStore(m, v, k) => Return(Put(s, t, m, k, Taken(t, k, Some(v))), t, v)
    case FetchAdd(m) => Goto(s.(count := s.count + 1, tickets := s.tickets[t := s.count + 1]), t, TestHalf(m, s.count + 1))
    case TestHalf(m, n) => Goto(s, t, if n >= Half(|s.tables[m]|) then TestAndSet(m, n) else TestRoom(m, n))
    case TestAndSet(m, n) =>
      if s.resizing.None? then Goto(s.(resizing := Some(t)), t, Reload(n)) else Goto(s, t, TestRoom(m, n))
    case Reload(n) =>
      Goto(s, t, if n >= Half(|s.tables[newest]|) then Publish(newest, n) else Clear(newest, n))
    case Publish(m, n) =>
      Goto(s.(tables := s.tables + [seq(NewCapacity(2 * |s.tables[m]|, n), _ => Empty)]), t, Clear(|s.tables|, n))
    case Clear(m, n) => Goto(s.(resizing := None), t, TestRoom(m, n))
    case TestRoom(m, n) => Goto(s, t, if n < ThreeQuarters(|s.tables[m]|) then Create(m, n) else Wait(n))
    case Wait(n) => Goto(s, t, TestHalf(newest, n))
    case Create(m, n) => Goto(s.(made := s.made + 1, homes := s.homes[t := s.made]), t, Insert(m, s.made, 0))
    case Insert(m, v, k) => Goto(s, t, if Here(s, t, m, k).Empty? then InsertCas(m, v, k) else Insert(m, v, k + 1))
    case InsertCas(m, v, k) =>
      if Here(s, t, m, k).Empty?
      then Goto(Put(s, t, m, k, Taken(t, k, None)).(places := s.places[t := m]), t, InsertStore(m, v, k))
      else Goto(s, t, Insert(m, v, k + 1))
    case InsertStore(m, v, k) => Return(Put(s, t, m, k, Taken(t, k, Some(v))), t, v)
  }

  // ----- The invariant -----

  ghost predicate Contains(table: Table, id: Id) { exists p :: 0 <= p < |table| && table[p].Taken? && table[p].id == id }

  /** Storing the value of the slot it has just taken. */
  predicate Storing(pc: Pc, m: nat, k: nat) {
    (pc.CopyStore? || pc.InsertStore?) && pc.main == m && pc.k == k
  }

  /** A key is where linear probing will find it, has a value once its owner has stored it, and its
      owner's ticket is below three quarters of the table. */
  ghost predicate SlotOk(s: State, h: nat, p: nat)
    requires HasTable(s, h) && p < |s.tables[h]|
  {
    var slot := s.tables[h][p];
    slot.Taken? ==>
      && slot.id in s.pcs && slot.id in s.hashed && slot.id in s.tickets && slot.id in s.homes && slot.id in s.places
      && s.tickets[slot.id] < ThreeQuarters(|s.tables[h]|)
      && p == At(s, slot.id, h, slot.steps)
      && Passed(s, slot.id, h, slot.steps)
      && (if Storing(s.pcs[slot.id], h, slot.steps) then slot.value == None else slot.value == Some(s.homes[slot.id]))
  }

  /** The first k slots on the thread's path in table h are taken, by others. */
  ghost predicate Passed(s: State, t: Id, h: nat, k: nat)
    requires t in s.hashed && HasTable(s, h)
  {
    forall j {:trigger At(s, t, h, j)} | 0 <= j < k :: Here(s, t, h, j).Taken? && Here(s, t, h, j).id != t
  }

  ghost predicate Once(table: Table) {
    forall p, q | 0 <= p < q < |table| && table[p].Taken? && table[q].Taken? :: table[p].id != table[q].id
  }

  ghost predicate TableOk(s: State, h: nat)
    requires h < |s.tables|
  {
    && HasTable(s, h) && Once(s.tables[h])
    && forall p {:trigger SlotOk(s, h, p)} | 0 <= p < |s.tables[h]| :: SlotOk(s, h, p)
  }

  ghost predicate TicketsOk(s: State) {
    && (forall t <- s.tickets :: t in s.pcs && 1 <= s.tickets[t] <= s.count)
    && (forall t, u | t in s.tickets && u in s.tickets && t != u :: s.tickets[t] != s.tickets[u])
    && (forall t <- s.homes :: t in s.tickets && s.homes[t] < s.made)
    && (forall t, u | t in s.homes && u in s.homes && t != u :: s.homes[t] != s.homes[u])
  }

  /** The id is in none of the tables above h, up to m. */
  ghost predicate NotAbove(s: State, t: Id, h: nat, m: nat)
    requires m < |s.tables|
  {
    forall i {:trigger s.tables[i]} | h < i <= m :: !Contains(s.tables[i], t)
  }

  predicate Adding(pc: Pc) {
    pc.TestHalf? || pc.TestAndSet? || pc.Reload? || pc.Publish? || pc.Clear? || pc.TestRoom? || pc.Wait? || pc.Create?
  }
  predicate Inserting(pc: Pc) { pc.Insert? || pc.InsertCas? }
  predicate Resizing(pc: Pc) { pc.Reload? || pc.Publish? || pc.Clear? }

  ghost predicate PcOk(s: State, t: Id, pc: Pc)
    requires t in s.hashed && s.tables != []
  {
    && (Resizing(pc) <==> s.resizing == Some(t))
    && (t in s.tickets <==> t in s.homes || Adding(pc))
    && (t in s.homes <==> t in s.places || Inserting(pc))
    && (Inserting(pc) ==> t !in s.places)
    && (Adding(pc) ==> t !in s.homes && s.tickets[t] == pc.n)
    && (!pc.Idle? && !pc.Load? && !pc.Reload? && !pc.Wait? ==> pc.main < |s.tables|)
    && (pc.Probe? || pc.Found? ==> pc.table <= pc.main && (t in s.places ==> s.places[t] <= pc.main))
    && (pc.Probe? ==> HasTable(s, pc.table) && NotAbove(s, t, pc.table, pc.main) && Passed(s, t, pc.table, pc.k))
    && (pc.Found? ==> HasTable(s, pc.table) && NotAbove(s, t, pc.table, pc.main)
                      && Here(s, t, pc.table, pc.k).Taken? && Here(s, t, pc.table, pc.k).id == t
                         && Here(s, t, pc.table, pc.k).steps == pc.k)
    && (pc.Copy? || pc.CopyCas? ==>
          && t in s.homes && pc.value == s.homes[t] && t in s.places && !Contains(s.tables[pc.main], t)
          && HasTable(s, pc.main) && s.tickets[t] < ThreeQuarters(|s.tables[pc.main]|) && Passed(s, t, pc.main, pc.k))
    && (pc.CopyStore? || pc.InsertStore? ==>
          t in s.homes && pc.value == s.homes[t] && HasTable(s, pc.main) && Here(s, t, pc.main, pc.k) == Taken(t, pc.k, None))
    && (pc.FetchAdd? ==> t !in s.tickets)
    && (pc.Publish? ==> pc.main == |s.tables| - 1)
    && (pc.Create? ==> HasTable(s, pc.main) && pc.n < ThreeQuarters(|s.tables[pc.main]|))
    && (Inserting(pc) ==>
          && pc.value == s.homes[t] && HasTable(s, pc.main)
          && s.tickets[t] < ThreeQuarters(|s.tables[pc.main]|) && Passed(s, t, pc.main, pc.k))
  }

  ghost predicate Inv(s: State) {
    && s.tables != [] && s.pcs.Keys == s.hashed.Keys && (s.resizing.Some? ==> s.resizing.value in s.pcs)
    && (forall h {:trigger TableOk(s, h)} | 0 <= h < |s.tables| :: TableOk(s, h))
    && (forall h, g | 0 <= h < g < |s.tables| :: |s.tables[h]| <= |s.tables[g]|)
    && TicketsOk(s)
    && (forall t <- s.places {:trigger s.places[t]} ::
             t in s.pcs && s.places[t] < |s.tables| && Contains(s.tables[s.places[t]], t))
    && (forall t <- s.pcs {:trigger PcOk(s, t, s.pcs[t])} :: PcOk(s, t, s.pcs[t]))
    && (forall i | 0 <= i < |s.results| :: s.results[i].0 in s.homes && s.homes[s.results[i].0] == s.results[i].1)
  }

  // ----- Room -----

  /** Distinct pigeons need as many holes. */
  lemma {:induction false} Pigeonhole(f: seq<nat>, m: nat)
    requires (forall i | 0 <= i < |f| :: f[i] < m) && forall i, j | 0 <= i < j < |f| :: f[i] != f[j]
    ensures |f| <= m
    decreases m
  {
    if f != [] {
      assert f[0] < m;
      if i :| 0 <= i < |f| && f[i] == m - 1 {
        Pigeonhole(f[..i] + f[i + 1..], m - 1);
      } else {
        Pigeonhole(f, m - 1);
      }
    }
  }

  /** Every table has an empty slot: its keys have distinct tickets below three quarters of it. */
  lemma RoomLeft(s: State, h: nat)
    requires Inv(s) && h < |s.tables|
    ensures exists p :: 0 <= p < |s.tables[h]| && s.tables[h][p].Empty?
  {
    var table := s.tables[h];
    assert TableOk(s, h);
    if forall p | 0 <= p < |table| :: table[p].Taken? {
      forall p | 0 <= p < |table| ensures table[p].id in s.tickets && s.tickets[table[p].id] < ThreeQuarters(|table|) {
        assert SlotOk(s, h, p);
      }
      var tickets: seq<nat> := seq(|table|, p requires 0 <= p < |table| => s.tickets[table[p].id]);
      Pigeonhole(tickets, ThreeQuarters(|table|));
      assert false;
    }
  }

  lemma PathCovers(hash: nat, p: nat, capacity: nat) returns (k: nat)
    requires p < capacity
    ensures k < capacity && Position(hash, k, capacity) == p
  {
    var r, q := hash % capacity, hash / capacity;
    BlockIndex.DivMod(hash, capacity);
    if p >= r {
      k := p - r;
      BlockIndex.ModUnique(hash + k, q, p, capacity);
    } else {
      k := p + capacity - r;
      BlockIndex.MulAdd(q, 1, capacity);
      BlockIndex.ModUnique(hash + k, q + 1, p, capacity);
    }
  }

  /** A probe loop never goes all the way round: it makes at most one round per slot. */
  lemma ProbeEnds(s: State, t: Id, h: nat, k: nat)
    requires Inv(s) && h < |s.tables| && t in s.hashed && HasTable(s, h) && Passed(s, t, h, k)
    ensures k < |s.tables[h]|
  {
    RoomLeft(s, h);
    var p :| 0 <= p < |s.tables[h]| && s.tables[h][p].Empty?;
    var j := PathCovers(s.hashed[t], p, |s.tables[h]|);
    assert At(s, t, h, j) == p;
  }

  // ----- Frames -----

  /** What a step of t may do to a slot. */
  predicate SlotMay(a: Slot, b: Slot, t: Id) {
    match a
    case Empty => b.Empty? || b.id == t
    case Taken(id, steps, v) => b.Taken? && b.id == id && b.steps == steps && (id != t ==> b == a)
  }

  ghost predicate Extends(s: State, s': State, t: Id) {
    && s'.hashed == s.hashed && s'.pcs.Keys == s.pcs.Keys && |s.tables| <= |s'.tables|
    && (|s.tables| < |s'.tables| ==> s.resizing == Some(t))
    && (forall h {:trigger s'.tables[h]} | 0 <= h < |s.tables| :: |s'.tables[h]| == |s.tables[h]|
          && forall p | 0 <= p < |s.tables[h]| :: SlotMay(s.tables[h][p], s'.tables[h][p], t))
    && (forall h | |s.tables| <= h < |s'.tables| :: forall p | 0 <= p < |s'.tables[h]| :: s'.tables[h][p].Empty?)
    && (s'.resizing == s.resizing || (s.resizing == None && s'.resizing == Some(t))
        || (s.resizing == Some(t) && s'.resizing == None))
    && (forall u | u != t && u in s.pcs ::
          && s'.pcs[u] == s.pcs[u]
          && (u in s'.tickets <==> u in s.tickets) && (u in s.tickets ==> s'.tickets[u] == s.tickets[u])
          && (u in s'.homes <==> u in s.homes) && (u in s.homes ==> s'.homes[u] == s.homes[u])
          && (u in s'.places <==> u in s.places) && (u in s.places ==> s'.places[u] == s.places[u]))
  }

  lemma NotContainsKept(s: State, s': State, t: Id, u: Id, h: nat)
    requires Extends(s, s', t) && h < |s.tables| && u != t && !Contains(s.tables[h], u)
    ensures !Contains(s'.tables[h], u)
  {
    forall p | 0 <= p < |s'.tables[h]| ensures !(s'.tables[h][p].Taken? && s'.tables[h][p].id == u) {
      assert SlotMay(s.tables[h][p], s'.tables[h][p], t);
      assert !(s.tables[h][p].Taken? && s.tables[h][p].id == u);
    }
  }

  lemma ContainsKept(s: State, s': State, t: Id, u: Id, h: nat)
    requires Extends(s, s', t) && h < |s.tables| && Contains(s.tables[h], u)
    ensures Contains(s'.tables[h], u)
  {
    var p :| 0 <= p < |s.tables[h]| && s.tables[h][p].Taken? && s.tables[h][p].id == u;
    assert SlotMay(s.tables[h][p], s'.tables[h][p], t);
    assert s'.tables[h][p].Taken? && s'.tables[h][p].id == u;
  }

  lemma PassedKept(s: State, s': State, t: Id, u: Id, h: nat, k: nat)
    requires Extends(s, s', t) && u in s.hashed && HasTable(s, h) && HasTable(s', h) && Passed(s, u, h, k)
    ensures Passed(s', u, h, k)
  {
    forall j | 0 <= j < k ensures Here(s', u, h, j).Taken? && Here(s', u, h, j).id != u {
      assert At(s', u, h, j) == At(s, u, h, j);
      assert SlotMay(s.tables[h][At(s, u, h, j)], s'.tables[h][At(s, u, h, j)], t);
      assert Here(s, u, h, j).Taken? && Here(s, u, h, j).id != u;
    }
  }

  lemma OtherPc(s: State, s': State, t: Id, u: Id, pc: Pc)
    requires Extends(s, s', t) && u != t && u in s.pcs && u in s.hashed && s.tables != [] && PcOk(s, u, pc)
    requires s.resizing == Some(t) ==> !Resizing(pc)
    ensures PcOk(s', u, pc)
  {
    if pc.Probe? {
      PassedKept(s, s', t, u, pc.table, pc.k);
      forall i | pc.table < i <= pc.main ensures !Contains(s'.tables[i], u) { NotContainsKept(s, s', t, u, i); }
    }
    if pc.Found? {
      forall i | pc.table < i <= pc.main ensures !Contains(s'.tables[i], u) { NotContainsKept(s, s', t, u, i); }
      assert SlotMay(Here(s, u, pc.table, pc.k), Here(s', u, pc.table, pc.k), t);
    }
    if pc.Copy? || pc.CopyCas? {
      PassedKept(s, s', t, u, pc.main, pc.k);
      NotContainsKept(s, s', t, u, pc.main);
    }
    if Inserting(pc) { PassedKept(s, s', t, u, pc.main, pc.k); }
    if pc.CopyStore? || pc.InsertStore? {
      assert SlotMay(Here(s, u, pc.main, pc.k), Here(s', u, pc.main, pc.k), t);
    }
  }

  // ----- Steps -----

  predicate IsStore(pc: Pc) { pc.CopyStore? || pc.InsertStore? }

  /** What a thread knows of itself only grows. */
  ghost predicate OwnKept(s: State, s': State, t: Id) {
    && (t in s.tickets ==> t in s'.tickets && s'.tickets[t] == s.tickets[t])
    && (t in s.homes ==> t in s'.homes && s'.homes[t] == s.homes[t])
    && (t in s.places ==> t in s'.places && s'.places[t] == s.places[t])
  }

  /** A slot a step leaves alone. */
  lemma SlotKept(s: State, s': State, t: Id, h: nat, p: nat)
    requires Extends(s, s', t) && OwnKept(s, s', t) && HasTable(s, h) && HasTable(s', h) && p < |s.tables[h]|
    requires SlotOk(s, h, p) && s'.tables[h][p] == s.tables[h][p]
    requires s.tables[h][p].Taken? && s.tables[h][p].id == t ==>
               t in s.pcs && Storing(s'.pcs[t], h, s.tables[h][p].steps) == Storing(s.pcs[t], h, s.tables[h][p].steps)
    ensures SlotOk(s', h, p)
  {
    var slot := s.tables[h][p];
    if slot.Taken? { PassedKept(s, s', t, slot.id, h, slot.steps); }
  }

  lemma TableKept(s: State, s': State, t: Id, h: nat)
    requires Extends(s, s', t) && OwnKept(s, s', t) && h < |s.tables| && TableOk(s, h) && s'.tables[h] == s.tables[h]
    requires t in s.pcs && forall k :: Storing(s'.pcs[t], h, k) == Storing(s.pcs[t], h, k)
    ensures TableOk(s', h)
  {
    forall p | 0 <= p < |s'.tables[h]| ensures SlotOk(s', h, p) {
      assert SlotOk(s, h, p);
      SlotKept(s, s', t, h, p);
    }
  }

  lemma FlagIsOwners(s: State, t: Id, u: Id)
    requires u in s.pcs && u in s.hashed && s.tables != [] && u != t && PcOk(s, u, s.pcs[u])
    ensures s.resizing == Some(t) ==> !Resizing(s.pcs[u])
  {
  }

  lemma HomesKept(s: State, s': State, t: Id)
    requires TicketsOk(s) && Extends(s, s', t) && OwnKept(s, s', t)
    ensures forall u <- s.homes :: u in s'.homes && s'.homes[u] == s.homes[u]
  {
  }

  /** What the invariant says of one thread. */
  lemma OfThread(s: State, t: Id)
    requires Inv(s) && t in s.pcs
    ensures s.tables != [] && s.pcs.Keys == s.hashed.Keys && TicketsOk(s) && PcOk(s, t, s.pcs[t])
    ensures t in s.places ==> s.places[t] < |s.tables| && Contains(s.tables[s.places[t]], t)
  {
    hide TicketsOk, PcOk, TableOk, Contains;
    assert PcOk(s, t, s.pcs[t]);
  }

  lemma OfTable(s: State, h: nat)
    requires Inv(s) && h < |s.tables|
    ensures TableOk(s, h) && HasTable(s, h)
  {
    hide TicketsOk, PcOk, Contains;
    assert TableOk(s, h);
  }

  /** The parts of the invariant about tables and about other threads. */
  lemma Assemble(s: State, s': State, t: Id)
    requires Inv(s) && t in s.pcs && Extends(s, s', t) && OwnKept(s, s', t)
    requires forall h {:trigger TableOk(s', h)} | 0 <= h < |s'.tables| :: TableOk(s', h)
    requires forall h, g | 0 <= h < g < |s'.tables| && |s.tables| <= g :: |s'.tables[h]| <= |s'.tables[g]|
    requires TicketsOk(s') && PcOk(s', t, s'.pcs[t])
    requires s'.places.Keys <= s.places.Keys + {t}
    requires t in s'.places ==> s'.places[t] < |s'.tables| && Contains(s'.tables[s'.places[t]], t)
    requires s'.results == s.results || (t in s'.homes && s'.results == s.results + [(t, s'.homes[t])])
    ensures Inv(s')
  {
    hide TableOk, TicketsOk, Contains, PcOk;
    HomesKept(s, s', t);
    forall u <- s'.pcs ensures PcOk(s', u, s'.pcs[u]) {
      if u != t {
        assert PcOk(s, u, s.pcs[u]);
        FlagIsOwners(s, t, u);
        OtherPc(s, s', t, u, s.pcs[u]);
      }
    }
    forall u <- s'.places ensures u in s'.pcs && s'.places[u] < |s'.tables| && Contains(s'.tables[s'.places[u]], u) {
      if u != t {
        assert u in s.places && s.places[u] == s'.places[u];
        ContainsKept(s, s', t, u, s.places[u]);
      }
    }
  }

  /** Steps that write no table. */
  lemma PlainStep(s: State, s': State, t: Id)
    requires Inv(s) && t in s.pcs && Extends(s, s', t) && OwnKept(s, s', t)
    requires s'.tables == s.tables && s'.places == s.places && !IsStore(s.pcs[t]) && !IsStore(s'.pcs[t])
    requires TicketsOk(s') && PcOk(s', t, s'.pcs[t])
    requires s'.results == s.results || (t in s'.homes && s'.results == s.results + [(t, s'.homes[t])])
    ensures Inv(s')
  {
    hide TicketsOk, PcOk, SlotOk, TableOk, Inv;
    OfThread(s, t);
    forall h | 0 <= h < |s'.tables| ensures TableOk(s', h) {
      OfTable(s, h);
      TableKept(s, s', t, h);
    }
    Assemble(s, s', t);
  }

  /** The slot is claimed by the compare-exchange. */
  ghost predicate Takes(s: State, s': State, t: Id, m: nat, k: nat) {
    && t in s.pcs && t in s.hashed && HasTable(s, m) && Here(s, t, m, k).Empty? && !IsStore(s.pcs[t])
    && t in s'.pcs && Storing(s'.pcs[t], m, k)
    && s'.tables == Put(s, t, m, k, Taken(t, k, None)).tables
    && (s'.places == s.places || (t !in s.places && s'.places == s.places[t := m]))
    && s' == s.(tables := s'.tables, pcs := s.pcs[t := s'.pcs[t]], places := s'.places)
    && t in s.homes && t in s'.places && s'.pcs[t].value == s.homes[t] && !Contains(s.tables[m], t)
    && Passed(s, t, m, k) && t in s.tickets && s.tickets[t] < ThreeQuarters(|s.tables[m]|) && s.resizing != Some(t)
  }

  lemma TakesExtends(s: State, s': State, t: Id, m: nat, k: nat)
    requires Takes(s, s', t, m, k) && s.pcs.Keys == s.hashed.Keys
    ensures Extends(s, s', t) && OwnKept(s, s', t) && m < |s'.tables| && Contains(s'.tables[m], t)
    ensures forall h | 0 <= h < |s.tables| && h != m :: s'.tables[h] == s.tables[h]
  {
    assert s'.tables[m][At(s, t, m, k)] == Taken(t, k, None);
  }

  lemma TakenTable(s: State, s': State, t: Id, m: nat, k: nat)
    requires Takes(s, s', t, m, k) && s.pcs.Keys == s.hashed.Keys && TableOk(s, m)
    ensures HasTable(s', m) && TableOk(s', m)
  {
    hide Contains;
    TakesExtends(s, s', t, m, k);
    var p := At(s, t, m, k);
    PassedKept(s, s', t, t, m, k);
    forall q | 0 <= q < |s'.tables[m]| ensures SlotOk(s', m, q) {
      assert SlotOk(s, m, q);
      if q != p { SlotKept(s, s', t, m, q); }
    }
    TakenOnce(s.tables[m], p, t, k);
  }

  lemma TakenOnce(table: Table, p: nat, t: Id, k: nat)
    requires Once(table) && p < |table| && table[p].Empty? && !Contains(table, t)
    ensures Once(table[p := Taken(t, k, None)])
  {
  }

  lemma TakenPc(s: State, s': State, t: Id, m: nat, k: nat)
    requires Takes(s, s', t, m, k) && s.tables != [] && PcOk(s, t, s.pcs[t])
    ensures TicketsOk(s) ==> TicketsOk(s')
    ensures PcOk(s', t, s'.pcs[t])
  {
    assert At(s', t, m, k) == At(s, t, m, k);
    assert Here(s', t, m, k) == Taken(t, k, None);
  }

  lemma TakeSlot(s: State, s': State, t: Id, m: nat, k: nat)
    requires Inv(s) && Takes(s, s', t, m, k)
    ensures Inv(s')
  {
    hide SlotOk, Once, Inv, PcOk, TableOk, TicketsOk;
    OfThread(s, t);
    TakesExtends(s, s', t, m, k);
    TakenPc(s, s', t, m, k);
    forall h | 0 <= h < |s'.tables| ensures TableOk(s', h) {
      OfTable(s, h);
      if h == m { TakenTable(s, s', t, m, k); } else { TableKept(s, s', t, h); }
    }
    if t in s.places { ContainsKept(s, s', t, t, s.places[t]); }
    hide Passed, Contains, Extends, OwnKept;
    Assemble(s, s', t);
  }

  /** Its owner stores the value and returns. */
  ghost predicate Fills(s: State, s': State, t: Id, m: nat, k: nat) {
    && t in s.pcs && t in s.hashed && HasTable(s, m) && Storing(s.pcs[t], m, k)
    && t in s.homes && Here(s, t, m, k) == Taken(t, k, None) && s.pcs[t].value == s.homes[t]
    && s' == Return(Put(s, t, m, k, Taken(t, k, Some(s.homes[t]))), t, s.homes[t])
  }

  lemma FillsExtends(s: State, s': State, t: Id, m: nat, k: nat)
    requires Fills(s, s', t, m, k) && s.pcs.Keys == s.hashed.Keys && s.tables != [] && PcOk(s, t, s.pcs[t])
    ensures Extends(s, s', t) && OwnKept(s, s', t) && (TicketsOk(s) ==> TicketsOk(s')) && PcOk(s', t, s'.pcs[t])
    ensures forall h | 0 <= h < |s.tables| && h != m :: s'.tables[h] == s.tables[h]
  {
    assert s'.tables[m][At(s, t, m, k)] == Taken(t, k, Some(s.homes[t]));
  }

  lemma FillSlot(s: State, s': State, t: Id, m: nat, k: nat)
    requires Inv(s) && Fills(s, s', t, m, k)
    ensures Inv(s')
  {
    hide SlotOk, Once, Inv, PcOk, TableOk, TicketsOk;
    OfThread(s, t);
    FillsExtends(s, s', t, m, k);
    forall h | 0 <= h < |s'.tables| ensures TableOk(s', h) {
      OfTable(s, h);
      if h != m { TableKept(s, s', t, h); } else { FilledTable(s, s', t, m, k); }
    }
    if t in s.places { ContainsKept(s, s', t, t, s.places[t]); }
    hide Passed, Contains, Extends, OwnKept;
    Assemble(s, s', t);
  }

  lemma FilledTable(s: State, s': State, t: Id, m: nat, k: nat)
    requires Fills(s, s', t, m, k) && TableOk(s, m) && Extends(s, s', t)
    ensures TableOk(s', m)
  {
    var p := At(s, t, m, k);
    assert SlotOk(s, m, p);
    PassedKept(s, s', t, t, m, k);
    forall q | 0 <= q < |s'.tables[m]| ensures SlotOk(s', m, q) {
      assert SlotOk(s, m, q);
      if q != p { SlotKept(s, s', t, m, q); }
    }
  }

  lemma PublishKeeps(s: State, t: Id)
    requires t in s.pcs && s.pcs[t].Publish? && Defined(s, t) && s.pcs.Keys == s.hashed.Keys && PcOk(s, t, s.pcs[t])
    ensures var s', n := Run(s, t), |s.tables|;
            Extends(s, s', t) && OwnKept(s, s', t) && PcOk(s', t, s'.pcs[t]) && (TicketsOk(s) ==> TicketsOk(s'))
            && |s'.tables| == n + 1 && s'.tables[..n] == s.tables && |s'.tables[n]| >= 2 * |s.tables[n - 1]|
            && TableOk(s', n)
  {
    var s', n := Run(s, t), |s.tables|;
    assert forall p | 0 <= p < |s'.tables[n]| :: s'.tables[n][p].Empty?;
    assert TableOk(s', n) by {
      forall p | 0 <= p < |s'.tables[n]| ensures SlotOk(s', n, p) { }
    }
  }

  /** The holder of the resize flag publishes a larger, empty table. */
  lemma PublishTable(s: State, s': State, t: Id)
    requires Inv(s) && t in s.pcs && s.pcs[t].Publish? && Defined(s, t) && s' == Run(s, t)
    ensures Inv(s')
  {
    hide TableOk, TicketsOk, Contains, Inv, PcOk, Extends, OwnKept;
    OfThread(s, t);
    PublishKeeps(s, t);
    var n := |s.tables|;
    forall h | 0 <= h < |s'.tables| ensures TableOk(s', h) {
      if h < n {
        OfTable(s, h);
        assert s'.tables[h] == s'.tables[..n][h];
        TableKept(s, s', t, h);
      }
    }
    forall h | 0 <= h < n ensures |s'.tables[h]| <= |s'.tables[n]| {
      SizesGrow(s, h, n - 1);
      assert s'.tables[h] == s'.tables[..n][h];
    }
    Assemble(s, s', t);
  }

  // ----- Each transition -----

  /** No id that is not placed is in a table. */
  lemma OnlyPlaced(s: State, t: Id, h: nat)
    requires Inv(s) && h < |s.tables| && t !in s.places
    ensures !Contains(s.tables[h], t)
  {
    assert TableOk(s, h);
    forall p | 0 <= p < |s.tables[h]| ensures !(s.tables[h][p].Taken? && s.tables[h][p].id == t) { assert SlotOk(s, h, p); }
  }

  /** An empty slot on the path ends the search: the id is not further on. */
  lemma EmptyEndsPath(s: State, t: Id, h: nat, k: nat)
    requires Inv(s) && h < |s.tables| && t in s.hashed && HasTable(s, h) && Passed(s, t, h, k) && Here(s, t, h, k).Empty?
    ensures !Contains(s.tables[h], t)
  {
    assert TableOk(s, h);
    forall p | 0 <= p < |s.tables[h]| ensures !(s.tables[h][p].Taken? && s.tables[h][p].id == t) {
      assert SlotOk(s, h, p);
    }
  }

  lemma ThreadDefined(s: State, t: Id)
    requires Inv(s) && t in s.pcs
    ensures Defined(s, t)
  {
    var pc := s.pcs[t];
    assert PcOk(s, t, pc);
    forall h | 0 <= h < |s.tables| ensures HasTable(s, h) { assert TableOk(s, h); }
    if pc.Found? {
      var p := At(s, t, pc.table, pc.k);
      assert TableOk(s, pc.table) && SlotOk(s, pc.table, p);
    }
  }

  /** Moving on without writing. */
  lemma GotoStep(s: State, t: Id, pc: Pc)
    requires Inv(s) && t in s.pcs && t in s.hashed && s.tables != []
    requires !IsStore(s.pcs[t]) && !IsStore(pc) && PcOk(s, t, pc)
    ensures Inv(Goto(s, t, pc))
  {
    hide Inv;
    var s' := Goto(s, t, pc);
    OfThread(s, t);
    GotoKeeps(s, t, pc);
    PlainStep(s, s', t);
  }

  /** What a thread knows depends on the tables and on the history of the ids, not on the program counters. */
  lemma SamePc(s: State, s': State, t: Id, pc: Pc)
    requires t in s.hashed && s.tables != [] && PcOk(s, t, pc)
    requires s'.tables == s.tables && s'.hashed == s.hashed && s'.resizing == s.resizing
    requires s'.tickets == s.tickets && s'.homes == s.homes && s'.places == s.places
    ensures PcOk(s', t, pc)
  {
    if pc.Probe? { SamePath(s, s', t, pc.table, pc.k); }
    if pc.Copy? || pc.CopyCas? || Inserting(pc) { SamePath(s, s', t, pc.main, pc.k); }
  }

  lemma SamePath(s: State, s': State, t: Id, h: nat, k: nat)
    requires t in s.hashed && HasTable(s, h) && s'.tables == s.tables && s'.hashed == s.hashed && Passed(s, t, h, k)
    ensures Passed(s', t, h, k)
  {
    forall j | 0 <= j < k ensures Here(s', t, h, j).Taken? && Here(s', t, h, j).id != t {
      assert At(s', t, h, j) == At(s, t, h, j);
    }
  }

  /** A step that writes no table and nothing of another thread. */
  lemma QuietExtends(s: State, s': State, t: Id)
    requires s'.tables == s.tables && s'.hashed == s.hashed && s'.pcs.Keys == s.pcs.Keys
    requires s'.resizing == s.resizing || (s.resizing == None && s'.resizing == Some(t))
             || (s.resizing == Some(t) && s'.resizing == None)
    requires forall u: Id | u != t && u in s.pcs :: s'.pcs[u] == s.pcs[u]
    requires s'.tickets == s.tickets || (t in s'.tickets && s'.tickets == s.tickets[t := s'.tickets[t]])
    requires s'.homes == s.homes || (t in s'.homes && s'.homes == s.homes[t := s'.homes[t]])
    requires s'.places == s.places
    ensures Extends(s, s', t)
  {
  }

  lemma GotoKeeps(s: State, t: Id, pc: Pc)
    requires t in s.pcs && t in s.hashed && s.pcs.Keys == s.hashed.Keys && s.tables != [] && PcOk(s, t, pc) && TicketsOk(s)
    ensures var s' := Goto(s, t, pc); Extends(s, s', t) && OwnKept(s, s', t) && TicketsOk(s') && PcOk(s', t, pc)
  {
    hide PcOk, Extends;
    QuietExtends(s, Goto(s, t, pc), t);
    SamePc(s, Goto(s, t, pc), t, pc);
  }

  /** One more slot looked at. */
  lemma PassedOne(s: State, t: Id, h: nat, k: nat)
    requires t in s.hashed && HasTable(s, h) && Passed(s, t, h, k) && Here(s, t, h, k).Taken? && Here(s, t, h, k).id != t
    ensures Passed(s, t, h, k + 1)
  {
    forall j | 0 <= j < k + 1 ensures Here(s, t, h, j).Taken? && Here(s, t, h, j).id != t {
      if j < k { assert At(s, t, h, j) < |s.tables[h]|; }
    }
  }

  /** A thread's key is exactly as far down its path as it was put. */
  lemma KeyIsHere(s: State, t: Id, h: nat, k: nat)
    requires t in s.hashed && HasTable(s, h) && TableOk(s, h) && Passed(s, t, h, k)
    requires Here(s, t, h, k).Taken? && Here(s, t, h, k).id == t
    ensures Here(s, t, h, k).steps == k
  {
    var slot := Here(s, t, h, k);
    assert SlotOk(s, h, At(s, t, h, k));
    assert At(s, t, h, slot.steps) == At(s, t, h, k);
  }

  lemma ProbeStep(s: State, t: Id)
    requires Inv(s) && t in s.pcs && Defined(s, t) && s.pcs[t].Probe?
    ensures Inv(Run(s, t))
  {
    hide TableOk, TicketsOk, Contains, At;
    var pc := s.pcs[t];
    OfThread(s, t);
    OfTable(s, pc.table);
    var slot := Here(s, t, pc.table, pc.k);
    if slot.Taken? && slot.id == t {
      KeyIsHere(s, t, pc.table, pc.k);
      GotoStep(s, t, Found(pc.main, pc.table, pc.k));
    } else if slot.Taken? {
      PassedOne(s, t, pc.table, pc.k);
      GotoStep(s, t, Probe(pc.main, pc.table, pc.k + 1));
    } else {
      EmptyEndsPath(s, t, pc.table, pc.k);
      if pc.table > 0 {
        OfTable(s, pc.table - 1);
        GotoStep(s, t, Probe(pc.main, pc.table - 1, 0));
      } else {
        GotoStep(s, t, FetchAdd(pc.main));
      }
    }
  }

  lemma SizesGrow(s: State, h: nat, g: nat)
    requires Inv(s) && h <= g < |s.tables|
    ensures |s.tables[h]| <= |s.tables[g]|
  {
    hide TableOk, TicketsOk, PcOk, Contains;
  }

  /** What a thread finds under its own id, unless it is about to store it. */
  lemma FoundValue(s: State, t: Id, h: nat, p: nat)
    requires Inv(s) && t in s.pcs && !IsStore(s.pcs[t]) && HasTable(s, h) && p < |s.tables[h]|
    requires s.tables[h][p].Taken? && s.tables[h][p].id == t
    ensures t in s.homes && t in s.places && t in s.tickets && s.tickets[t] < ThreeQuarters(|s.tables[h]|)
    ensures s.tables[h][p].value == Some(s.homes[t])
  {
    hide Inv;
    OfTable(s, h);
    assert SlotOk(s, h, p);
  }

  lemma FoundStep(s: State, t: Id)
    requires Inv(s) && t in s.pcs && Defined(s, t) && s.pcs[t].Found?
    ensures Inv(Run(s, t))
  {
    hide TableOk, TicketsOk, Contains, Inv;
    var pc := s.pcs[t];
    OfThread(s, t);
    FoundValue(s, t, pc.table, At(s, t, pc.table, pc.k));
    if pc.table == pc.main {
      ReturnKeeps(s, t);
      PlainStep(s, Return(s, t, s.homes[t]), t);
    } else {
      OfTable(s, pc.main);
      SizesGrow(s, pc.table, pc.main);
      assert !Contains(s.tables[pc.main], t);
      GotoStep(s, t, Copy(pc.main, s.homes[t], 0));
    }
  }

  lemma ReturnKeeps(s: State, t: Id)
    requires t in s.pcs && t in s.homes && s.pcs.Keys == s.hashed.Keys && s.tables != [] && PcOk(s, t, s.pcs[t]) && TicketsOk(s)
    requires s.pcs[t].Found?
    ensures var s' := Return(s, t, s.homes[t]); Extends(s, s', t) && OwnKept(s, s', t) && TicketsOk(s') && PcOk(s', t, s'.pcs[t])
  {
    hide Extends;
    var s' := Return(s, t, s.homes[t]);
    QuietExtends(s, s', t);
    assert PcOk(s, t, Idle);
    SamePc(s, s', t, Idle);
  }

  lemma ClaimTakes(s: State, t: Id, m: nat, k: nat)
    requires t in s.pcs && Defined(s, t) && PcOk(s, t, s.pcs[t]) && s.tables != [] && m < |s.tables| && !Contains(s.tables[m], t)
    requires s.pcs[t].CopyCas? || s.pcs[t].InsertCas?
    requires s.pcs[t].main == m && s.pcs[t].k == k
    requires Here(s, t, m, k).Empty?
    ensures Takes(s, Run(s, t), t, m, k)
  {
    hide Passed, Contains, Here;
  }

  /** Looking for an empty slot in the table the key goes to. */
  lemma FillingStep(s: State, t: Id)
    requires Inv(s) && t in s.pcs && Defined(s, t)
    requires s.pcs[t].Copy? || s.pcs[t].CopyCas? || Inserting(s.pcs[t])
    ensures Inv(Run(s, t))
  {
    hide TableOk, TicketsOk, Contains, Inv, Passed, Takes;
    var pc, m, k := s.pcs[t], s.pcs[t].main, s.pcs[t].k;
    OfThread(s, t);
    if Inserting(pc) { OnlyPlaced(s, t, m); }
    KeyNotIn(s, t, m, At(s, t, m, k));
    if Here(s, t, m, k).Taken? {
      PassedOne(s, t, m, k);
      GotoStep(s, t, if pc.Copy? || pc.CopyCas? then Copy(m, pc.value, k + 1) else Insert(m, pc.value, k + 1));
    } else if pc.Copy? || pc.Insert? {
      GotoStep(s, t, if pc.Copy? then CopyCas(m, pc.value, k) else InsertCas(m, pc.value, k));
    } else {
      ClaimTakes(s, t, m, k);
      TakeSlot(s, Run(s, t), t, m, k);
    }
  }

  lemma KeyNotIn(s: State, t: Id, h: nat, p: nat)
    requires h < |s.tables| && p < |s.tables[h]| && !Contains(s.tables[h], t)
    ensures !(s.tables[h][p].Taken? && s.tables[h][p].id == t)
  {
  }

  lemma StoreStep(s: State, t: Id)
    requires Inv(s) && t in s.pcs && Defined(s, t) && IsStore(s.pcs[t])
    ensures Inv(Run(s, t))
  {
    hide TableOk, TicketsOk, Contains, Inv;
    OfThread(s, t);
    FillSlot(s, Run(s, t), t, s.pcs[t].main, s.pcs[t].k);
  }

  predicate Deciding(s: State, pc: Pc) {
    pc.Idle? || pc.Load? || pc.TestHalf? || (pc.TestAndSet? && s.resizing.Some?) || pc.Reload? || pc.TestRoom? || pc.Wait?
  }

  /** Deciding whether to resize, and whether there is room. */
  lemma DecidePc(s: State, t: Id)
    requires s.tables != [] && t in s.pcs && Defined(s, t) && Deciding(s, s.pcs[t]) && PcOk(s, t, s.pcs[t])
             && HasTable(s, |s.tables| - 1)
    requires (s.pcs[t].TestRoom? ==> HasTable(s, s.pcs[t].main)) && (t in s.places ==> s.places[t] < |s.tables|)
    ensures t in Run(s, t).pcs && Run(s, t) == Goto(s, t, Run(s, t).pcs[t]) && !IsStore(Run(s, t).pcs[t])
    ensures PcOk(s, t, Run(s, t).pcs[t])
  {
    hide Contains, Here;
    if s.pcs[t].Idle? || s.pcs[t].Load? {
    } else {
      DecideMore(s, t);
    }
  }

  lemma DecideMore(s: State, t: Id)
    requires s.tables != [] && t in s.pcs && Defined(s, t) && Deciding(s, s.pcs[t]) && PcOk(s, t, s.pcs[t])
             && HasTable(s, |s.tables| - 1)
    requires (s.pcs[t].TestRoom? ==> HasTable(s, s.pcs[t].main)) && !s.pcs[t].Idle? && !s.pcs[t].Load?
    ensures t in Run(s, t).pcs && Run(s, t) == Goto(s, t, Run(s, t).pcs[t]) && !IsStore(Run(s, t).pcs[t])
    ensures PcOk(s, t, Run(s, t).pcs[t])
  {
    hide Contains, Here, Passed, NotAbove, HasTable, ThreeQuarters, Half;
  }

  lemma DecideStep(s: State, t: Id)
    requires Inv(s) && t in s.pcs && Defined(s, t) && Deciding(s, s.pcs[t])
    ensures Inv(Run(s, t))
  {
    OfThread(s, t);
    hide TableOk, TicketsOk, Contains, Inv, Here, PcOk, Run;
    OfTable(s, |s.tables| - 1);
    if s.pcs[t].TestRoom? { OfTable(s, s.pcs[t].main); }
    DecidePc(s, t);
    GotoStep(s, t, Run(s, t).pcs[t]);
  }

  /** Taking a ticket, taking and clearing the flag, making a producer. */
  lemma CountStep(s: State, t: Id)
    requires Inv(s) && t in s.pcs && Defined(s, t)
    requires var pc := s.pcs[t]; pc.FetchAdd? || (pc.TestAndSet? && s.resizing.None?) || pc.Clear? || pc.Create?
    ensures Inv(Run(s, t))
  {
    OfThread(s, t);
    CountKeeps(s, t);
    hide Inv, Run, Defined, Extends, OwnKept, PcOk, TicketsOk;
    PlainStep(s, Run(s, t), t);
  }

  lemma CountKeeps(s: State, t: Id)
    requires t in s.pcs && Defined(s, t) && s.pcs.Keys == s.hashed.Keys && PcOk(s, t, s.pcs[t]) && TicketsOk(s)
    requires var pc := s.pcs[t]; pc.FetchAdd? || (pc.TestAndSet? && s.resizing.None?) || pc.Clear? || pc.Create?
    ensures var s' := Run(s, t); Extends(s, s', t) && OwnKept(s, s', t) && TicketsOk(s') && PcOk(s', t, s'.pcs[t])
    ensures Run(s, t).tables == s.tables && Run(s, t).places == s.places && Run(s, t).results == s.results
    ensures !IsStore(Run(s, t).pcs[t])
  {
    CountTickets(s, t);
    CountPc(s, t);
    CountExtends(s, t);
    hide Extends, OwnKept, PcOk, TicketsOk, Run;
  }

  lemma CountExtends(s: State, t: Id)
    requires t in s.pcs && Defined(s, t) && s.pcs.Keys == s.hashed.Keys && PcOk(s, t, s.pcs[t])
    requires var pc := s.pcs[t]; pc.FetchAdd? || (pc.TestAndSet? && s.resizing.None?) || pc.Clear? || pc.Create?
    ensures Extends(s, Run(s, t), t) && OwnKept(s, Run(s, t), t)
  {
    hide Extends, Contains, Passed, NotAbove, Here, At, HasTable;
    QuietExtends(s, Run(s, t), t);
  }

  lemma CountPc(s: State, t: Id)
    requires t in s.pcs && Defined(s, t) && PcOk(s, t, s.pcs[t])
    requires var pc := s.pcs[t]; pc.FetchAdd? || (pc.TestAndSet? && s.resizing.None?) || pc.Clear? || pc.Create?
    ensures var s' := Run(s, t);
            s'.tables == s.tables && s'.hashed == s.hashed && s'.places == s.places && t in s'.pcs && PcOk(s', t, s'.pcs[t])
            && s'.results == s.results && !IsStore(s'.pcs[t])
  {
    hide Contains, NotAbove, Here;
    if s.pcs[t].Create? { CreatePc(s, t); } else { FlagPc(s, t); }
    hide PcOk, Run;
  }

  lemma CreatePc(s: State, t: Id)
    requires t in s.pcs && Defined(s, t) && PcOk(s, t, s.pcs[t]) && s.pcs[t].Create?
    ensures var s' := Run(s, t);
            s'.tables == s.tables && s'.hashed == s.hashed && s'.places == s.places && t in s'.pcs && PcOk(s', t, s'.pcs[t])
            && s'.results == s.results && !IsStore(s'.pcs[t])
  {
    hide Contains, NotAbove, Here;
    assert Passed(Run(s, t), t, s.pcs[t].main, 0);
  }

  lemma FlagPc(s: State, t: Id)
    requires t in s.pcs && Defined(s, t) && PcOk(s, t, s.pcs[t])
    requires var pc := s.pcs[t]; pc.FetchAdd? || (pc.TestAndSet? && s.resizing.None?) || pc.Clear?
    ensures var s' := Run(s, t);
            s'.tables == s.tables && s'.hashed == s.hashed && s'.places == s.places && t in s'.pcs && PcOk(s', t, s'.pcs[t])
            && s'.results == s.results && !IsStore(s'.pcs[t])
  {
    hide Contains, NotAbove, Here, Passed;
  }

  lemma CountTickets(s: State, t: Id)
    requires t in s.pcs && Defined(s, t) && PcOk(s, t, s.pcs[t]) && TicketsOk(s)
    requires var pc := s.pcs[t]; pc.FetchAdd? || (pc.TestAndSet? && s.resizing.None?) || pc.Clear? || pc.Create?
    ensures TicketsOk(Run(s, t))
  {
    hide Contains, Passed, NotAbove, Here;
  }

  /** Every step keeps the invariant. */
  lemma StepInv(s: State, t: Id)
    requires Inv(s) && t in s.pcs
    ensures Defined(s, t) && Inv(Run(s, t))
  {
    ThreadDefined(s, t);
    hide Inv, Run, Defined;
    match s.pcs[t]
    case Idle => DecideStep(s, t);
    case Load => DecideStep(s, t);
    case Probe(_, _, _) => ProbeStep(s, t);
    case Found(_, _, _) => FoundStep(s, t);
    case Copy(_, _, _) => FillingStep(s, t);
    case CopyCas(_, _, _) => FillingStep(s, t);
    case CopyStore(_, _, _) => StoreStep(s, t);
    case FetchAdd(_) => CountStep(s, t);
    case TestHalf(_, _) => DecideStep(s, t);
    case TestAndSet(_, _) => if s.resizing.None? { CountStep(s, t); } else { DecideStep(s, t); }
    case Reload(_) => DecideStep(s, t);
    case Publish(_, _) => PublishTable(s, Run(s, t), t);
    case Clear(_, _) => CountStep(s, t);
    case TestRoom(_, _) => DecideStep(s, t);
    case Wait(_) => DecideStep(s, t);
    case Create(_, _) => CountStep(s, t);
    case Insert(_, _, _) => FillingStep(s, t);
    case InsertCas(_, _, _) => FillingStep(s, t);
    case InsertStore(_, _, _) => StoreStep(s, t);
  }

  // ----- Runs -----

  ghost predicate Init(s: State) {
    && s.tables == [seq(INITIAL_HASH_SIZE, _ => Empty)] && s.count == 0 && s.resizing == None
    && s.hashed.Keys == s.pcs.Keys && (forall t: Id <- s.pcs :: s.pcs[t] == Idle)
    && s.tickets == map[] && s.homes == map[] && s.places == map[] && s.results == []
  }

  lemma InitInv(s: State)
    requires Init(s)
    ensures Inv(s)
  {
    forall h | 0 <= h < |s.tables| ensures TableOk(s, h) {
      forall p | 0 <= p < |s.tables[h]| ensures SlotOk(s, h, p) { }
    }
    forall t <- s.pcs ensures PcOk(s, t, s.pcs[t]) { }
  }

  /** Any threads, in any order, as often as they like. */
  ghost predicate Execution(run: seq<State>, who: seq<Id>) {
    && |run| == |who| + 1 && Init(run[0])
    && forall i {:trigger who[i]} | 0 <= i < |who| ::
         who[i] in run[i].pcs && Defined(run[i], who[i]) && run[i + 1] == Run(run[i], who[i])
  }

  lemma {:induction false} Reachable(run: seq<State>, who: seq<Id>, i: nat)
    requires Execution(run, who) && i < |run|
    ensures Inv(run[i]) && forall t <- run[i].pcs :: Defined(run[i], t)
  {
    hide Inv, Defined, Run;
    if i == 0 {
      InitInv(run[0]);
    } else {
      Reachable(run, who, i - 1);
      StepInv(run[i - 1], who[i - 1]);
    }
    forall t <- run[i].pcs ensures Defined(run[i], t) { StepInv(run[i], t); }
  }

  /** Two calls return the same producer exactly when the same thread made them. */
  lemma SameThreadSameProducer(run: seq<State>, who: seq<Id>, n: nat, i: nat, j: nat)
    requires Execution(run, who) && n < |run| && i < |run[n].results| && j < |run[n].results|
    ensures run[n].results[i].0 == run[n].results[j].0 <==> run[n].results[i].1 == run[n].results[j].1
  {
    Reachable(run, who, n);
    var s := run[n];
    assert s.results[i].0 in s.homes && s.results[j].0 in s.homes;
  }

  /** In every reachable state every table has an empty slot. */
  lemma AlwaysRoom(run: seq<State>, who: seq<Id>, n: nat, h: nat)
    requires Execution(run, who) && n < |run| && h < |run[n].tables|
    ensures exists p :: 0 <= p < |run[n].tables[h]| && run[n].tables[h][p].Empty?
  {
    Reachable(run, who, n);
    RoomLeft(run[n], h);
  }

  /** The table a probe loop is going through, and how far it has come. */
  function ProbeCursor(pc: Pc): Option<(nat, nat)> {
    match pc
    case Probe(_, h, k) => Some((h, k))
    case Copy(m, _, k) => Some((m, k))
    case CopyCas(m, _, k) => Some((m, k))
    case Insert(m, _, k) => Some((m, k))
    case InsertCas(m, _, k) => Some((m, k))
    case _ => None
  }

  /** No probe loop looks at more slots than its table has: the three `while (true)` loops end. */
  lemma ProbesEnd(run: seq<State>, who: seq<Id>, n: nat, t: Id)
    requires Execution(run, who) && n < |run| && t in run[n].pcs
    ensures var c := ProbeCursor(run[n].pcs[t]);
            c.Some? ==> c.value.0 < |run[n].tables| && c.value.1 < |run[n].tables[c.value.0]|
  {
    Reachable(run, who, n);
    var s, c := run[n], ProbeCursor(run[n].pcs[t]);
    OfThread(s, t);
    if c.Some? { ProbeEnds(s, t, c.value.0, c.value.1); }
  }
}
