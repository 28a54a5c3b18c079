module BlockIndex {
  /* The circular, growable block index of an implicit producer (src/concurrentqueue.h).

     A header is a power-of-two ring of pointers to shared entries; growing copies the pointers
     into a ring twice as large, and readers may go on using the old ring.  Entries are numbered,
     and keys are kept unwrapped: the code sees their 64-bit words. */

  import opened CircularArithmetic

  const INVALID_BLOCK_BASE: nat := 1
  const IMPLICIT_INITIAL_INDEX_SIZE: nat := 32
  const LAST_HEADER: nat := 54     // a ring of 2^60 pointers does not fit a 64-bit address space

  type Block = nat

  /** A freshly built entry has an uninitialised value next to its INVALID_BLOCK_BASE key. */
  datatype Value = Garbage | Null | At(block: Block)
  datatype Entry = Entry(key: nat, value: Value)
  datatype Header = Header(capacity: nat, tail: nat, index: seq<nat>)

  /** All headers ever published, oldest first; the blockIndex pointer is the last of them. */
  datatype Index = Index(headers: seq<Header>, entries: seq<Entry>)

  // ----- Operations, one shared store each -----

  /** a modulo m, which is what `& (m - 1)` computes when m is a power of two.  It is recursive, so
      that proofs about slots stay linear; ResIsMod says it is the modulus. */
  function Res(a: int, m: int): (r: nat)
    requires m > 0
    ensures r < m
    decreases if a < 0 then 1 else 0, if a < 0 then -a else a
  {
    if a < 0 then Res(a + m, m) else if a < m then a else Res(a - m, m)
  }

  /** The slot arithmetic of get_block_index_index_for_index.  The signed difference is divided by
      a size_t, so C++ converts it back and the division is unsigned. */
  function LookupSlot(base: Word64, tailBase: Word64, tail: nat, capacity: nat): nat
    requires capacity > 0
  {
    Res(W(tail + Minus(base, tailBase) / BLOCK_SIZE), capacity)
  }

  predicate IsHeader(ix: Index, h: nat) {
    && h < |ix.headers|
    && ix.headers[h].capacity > 0
    && |ix.headers[h].index| == ix.headers[h].capacity
    && forall q | 0 <= q < ix.headers[h].capacity :: ix.headers[h].index[q] < |ix.entries|
  }

  function Slot(ix: Index, h: nat, q: nat): (e: nat)
    requires IsHeader(ix, h) && q < ix.headers[h].capacity
    ensures e < |ix.entries|
  {
    ix.headers[h].index[q]
  }

  function Current(ix: Index): nat
    requires |ix.headers| > 0
  {
    |ix.headers| - 1
  }

  function NextSlot(ix: Index): nat
    requires |ix.headers| > 0 && IsHeader(ix, Current(ix))
  {
    Res(ix.headers[Current(ix)].tail + 1, ix.headers[Current(ix)].capacity)
  }

  function StoreKey(ix: Index, e: nat, key: nat): Index
    requires e < |ix.entries|
  {
    ix.(entries := ix.entries[e := ix.entries[e].(key := key)])
  }

  function StoreValue(ix: Index, e: nat, v: Value): Index
    requires e < |ix.entries|
  {
    ix.(entries := ix.entries[e := ix.entries[e].(value := v)])
  }

  function StoreTail(ix: Index, tail: nat): Index
    requires |ix.headers| > 0
  {
    ix.(headers := ix.headers[Current(ix) := ix.headers[Current(ix)].(tail := tail)])
  }

  /** rewind_block_index_tail: (tail - 1) & (capacity - 1). */
  function RewoundTail(ix: Index): nat
    requires |ix.headers| > 0 && IsHeader(ix, Current(ix))
  {
    Res(ix.headers[Current(ix)].tail - 1, ix.headers[Current(ix)].capacity)
  }

  /** The pointers of a ring twice as large: the old ring unrolled from its oldest slot, then as
      many new entries. */
  function Unrolled(prev: Header, firstNew: nat): (index: seq<nat>)
    requires prev.capacity > 0 && |prev.index| == prev.capacity
    ensures |index| == 2 * prev.capacity
    ensures forall i | 0 <= i < prev.capacity :: index[i] == prev.index[Res(prev.tail + 1 + i, prev.capacity)]
    ensures forall i | prev.capacity <= i < 2 * prev.capacity :: index[i] == firstNew + (i - prev.capacity)
  {
    var c := prev.capacity;
    var copied: seq<nat> := seq(c, i requires 0 <= i => prev.index[Res(prev.tail + 1 + i, c)]);
    var added: seq<nat> := seq(c, i requires 0 <= i => firstNew + i);
    copied + added
  }

  /** new_block_index with a previous header; the tail is left on the slot of the old tail. */
  function Grow(ix: Index): Index
    requires |ix.headers| > 0 && IsHeader(ix, Current(ix))
  {
    var prev := ix.headers[Current(ix)];
    Index(ix.headers + [Header(2 * prev.capacity, prev.capacity - 1, Unrolled(prev, |ix.entries|))],
          ix.entries + seq(prev.capacity, _ => Entry(INVALID_BLOCK_BASE, Garbage)))
  }

  /** new_block_index in the constructor. */
  function Initial(): Index {
    Index([Header(IMPLICIT_INITIAL_INDEX_SIZE, IMPLICIT_INITIAL_INDEX_SIZE - 1,
                  seq(IMPLICIT_INITIAL_INDEX_SIZE, i => i))],
          seq(IMPLICIT_INITIAL_INDEX_SIZE, _ => Entry(INVALID_BLOCK_BASE, Garbage)))
  }

  // ----- Residues -----

  predicate Cong(a: int, b: int, m: int)
    requires m > 0
  {
    Res(a, m) == Res(b, m)
  }

  lemma {:induction false} ResIsMod(a: int, m: int)
    requires m > 0
    ensures Res(a, m) == a % m
    decreases if a < 0 then 1 else 0, if a < 0 then -a else a
  {
    if a < 0 {
      ResIsMod(a + m, m);
      ModShift(a, m);
    } else if a >= m {
      ResIsMod(a - m, m);
      ModShift(a - m, m);
    } else {
      ModSmall(a, m);
    }
  }

  lemma DivMod(a: int, m: int)
    requires m > 0
    ensures a == (a / m) * m + a % m && 0 <= a % m < m
  {
  }

  lemma ModSmall(a: int, m: int)
    requires 0 <= a < m
    ensures a % m == a
  {
  }

  lemma ModShift(a: int, m: int)
    requires m > 0
    ensures (a + m) % m == a % m
  {
    DivMod(a, m);
    MulAdd(a / m, 1, m);
    ModUnique(a + m, a / m + 1, a % m, m);
  }

  lemma ModUnique(a: int, q: int, r: int, m: int)
    requires m > 0 && a == q * m + r && 0 <= r < m
    ensures a % m == r && a / m == q
  {
    DivMod(a, m);
    var d := a / m - q;
    MulAdd(q, d, m);
    if d >= 1 { MulMono(1, d, m); }
    if d <= -1 { MulMono(d, -1, m); }
  }

  lemma MulMono(a: int, b: int, m: nat)
    requires a <= b
    ensures a * m <= b * m
  {
    assert (b - a) * m >= 0;
  }

  lemma MulAdd(a: int, b: int, m: int)
    ensures (a + b) * m == a * m + b * m
    ensures (a - b) * m == a * m - b * m
  {
  }

  lemma CongBy(a: int, b: int, m: int, w: int)
    requires m > 0 && a - b == w * m
    ensures Cong(a, b, m)
  {
    ResIsMod(a, m);
    ResIsMod(b, m);
    DivMod(b, m);
    MulAdd(b / m, w, m);
    ModUnique(a, b / m + w, b % m, m);
  }

  lemma CongWitness(a: int, b: int, m: int) returns (w: int)
    requires m > 0 && Cong(a, b, m)
    ensures a - b == w * m
  {
    ResIsMod(a, m);
    ResIsMod(b, m);
    DivMod(a, m);
    DivMod(b, m);
    w := a / m - b / m;
    MulAdd(a / m, b / m, m);
  }

  lemma CongSum(a: int, b: int, c: int, d: int, m: int)
    requires m > 0 && Cong(a, b, m) && Cong(c, d, m)
    ensures Cong(a + c, b + d, m) && Cong(a - c, b - d, m)
  {
    var v := CongWitness(a, b, m);
    var w := CongWitness(c, d, m);
    MulAdd(v, w, m);
    CongBy(a + c, b + d, m, v + w);
    CongBy(a - c, b - d, m, v - w);
  }

  lemma CongShift(a: int, b: int, c: int, m: int)
    requires m > 0 && Cong(a, b, m)
    ensures Cong(a + c, b + c, m)
  {
    CongSum(a, b, c, c, m);
  }

  /** Two integers less than m apart are congruent only if equal. */
  lemma CongUnique(a: int, b: int, m: int)
    requires m > 0 && Cong(a, b, m) && 0 - m < a - b < m
    ensures a == b
  {
    var w := CongWitness(a, b, m);
    if w >= 1 { MulMono(1, w, m); }
    if w <= -1 { MulMono(w, -1, m); }
  }

  lemma CongCoarser(a: int, b: int, m: int, k: int)
    requires m > 0 && k * m > 0 && Cong(a, b, k * m)
    ensures Cong(a, b, m)
  {
    var w := CongWitness(a, b, k * m);
    assert w * (k * m) == (w * k) * m;
    CongBy(a, b, m, w * k);
  }

  // ----- The slot arithmetic -----

  /** Dividing the wrapped difference of two block bases. */
  lemma WrappedQuotient(j: int, k: int)
    ensures Cong(Minus(W(BLOCK_SIZE * j), W(BLOCK_SIZE * k)) / BLOCK_SIZE, j - k, WORD / BLOCK_SIZE)
  {
    MinusIsDifference(BLOCK_SIZE * j, BLOCK_SIZE * k);
    var d := BLOCK_SIZE * (j - k);
    WDecompose(d);
    var w :| d == W(d) + w * WORD;
    assert W(d) == BLOCK_SIZE * ((j - k) - w * (WORD / BLOCK_SIZE));
    CongBy(W(d) / BLOCK_SIZE, j - k, WORD / BLOCK_SIZE, -w);
  }

  /** The slot found is the true offset from the tail, modulo the capacity, for every pair of block
      bases - negative offsets and wrapped indices included - exactly when capacity * BLOCK_SIZE
      divides 2^64. */
  lemma LookupSlotExact(capacity: nat)
    requires capacity > 0
    ensures (exists n :: capacity * n * BLOCK_SIZE == WORD) <==>
            forall j, k, tail: nat ::
              Cong(LookupSlot(W(BLOCK_SIZE * j), W(BLOCK_SIZE * k), tail, capacity), tail + (j - k), capacity) {
    if n :| capacity * n * BLOCK_SIZE == WORD {
      forall j: int, k: int, tail: nat
        ensures Cong(LookupSlot(W(BLOCK_SIZE * j), W(BLOCK_SIZE * k), tail, capacity), tail + (j - k), capacity)
      {
        LookupSlotOffset(j, k, tail, capacity, n);
      }
    }
    if forall j, k, tail: nat ::
              Cong(LookupSlot(W(BLOCK_SIZE * j), W(BLOCK_SIZE * k), tail, capacity), tail + (j - k), capacity) {
      LookupSlotNeeds(capacity);
    }
  }

  lemma FactorPositive(capacity: nat, n: int)
    requires capacity * n * BLOCK_SIZE == WORD
    ensures n > 0 && n * capacity == WORD / BLOCK_SIZE && (n * BLOCK_SIZE) * capacity == WORD
  {
    if n <= 0 { MulMono(n, 0, capacity); }
  }

  lemma LookupSlotOffset(j: int, k: int, tail: nat, capacity: nat, n: int)
    requires capacity > 0 && capacity * n * BLOCK_SIZE == WORD
    ensures Cong(LookupSlot(W(BLOCK_SIZE * j), W(BLOCK_SIZE * k), tail, capacity), tail + (j - k), capacity)
  {
    var q := Minus(W(BLOCK_SIZE * j), W(BLOCK_SIZE * k)) / BLOCK_SIZE;
    FactorPositive(capacity, n);
    WrappedQuotient(j, k);
    CongCoarser(q, j - k, capacity, n);
    CongShift(q, j - k, tail, capacity);
    WordFine(tail + q, capacity, n);
  }

  lemma WordFine(x: int, capacity: nat, n: int)
    requires capacity > 0 && capacity * n * BLOCK_SIZE == WORD
    ensures Cong(W(x), x, capacity)
  {
    FactorPositive(capacity, n);
    CongBy(W(x), x, WORD, -(x / WORD));
    CongCoarser(W(x), x, capacity, n * BLOCK_SIZE);
  }

  /** One block back from the tail already needs it. */
  lemma LookupSlotNeeds(capacity: nat)
    requires capacity > 0
    requires Cong(LookupSlot(W(BLOCK_SIZE * 0), W(BLOCK_SIZE * 1), 0, capacity), 0 + (0 - 1), capacity)
    ensures exists n :: capacity * n * BLOCK_SIZE == WORD
  {
    WNegative(0 - BLOCK_SIZE);
    MinusIsDifference(0, BLOCK_SIZE);
    assert Minus(W(BLOCK_SIZE * 0), W(BLOCK_SIZE * 1)) / BLOCK_SIZE == WORD / BLOCK_SIZE - 1;
    var q := WORD / BLOCK_SIZE - 1;
    WSmall(q);
    var n := CongWitness(q, -1, capacity);
    assert capacity * n * BLOCK_SIZE == WORD;
  }
}
