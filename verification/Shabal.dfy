/** The Shabal compression function as src/mshabal_sse4.c computes it on each lane, and its inverse. */
module Shabal {
  type Word = bv32

  /** The 44 state words. */
  datatype Core = Core(a: seq<Word>, b: seq<Word>, c: seq<Word>)

  /** The block counter W, as the pair (Whigh, Wlow). */
  datatype Counter = Counter(high: Word, low: Word)

  predicate IsCore(s: Core) { |s.a| == 12 && |s.b| == 16 && |s.c| == 16 }

  // ----- Words -----

  const ONES: Word := 0xFFFFFFFF

  function RotL1(x: Word): Word { (x << 1) | (x >> 31) }
  function RotL15(x: Word): Word { (x << 15) | (x >> 17) }
  function RotL17(x: Word): Word { (x << 17) | (x >> 15) }
  function Times3(x: Word): Word { (x << 1) + x }
  function Times5(x: Word): Word { (x << 2) + x }

  function Blend(x: Word, t: Word, b1: Word, k: Word, c: Word): Word { (Times3((x ^ t) ^ c) ^ b1) ^ k }
  function Choose(b2: Word, b3: Word, m: Word): Word { ((b3 ^ ONES) & b2) ^ m }

  /** The first half of the PP macro: the new A word. */
  function MixA(a0: Word, a1: Word, b1: Word, b2: Word, b3: Word, c: Word, m: Word): Word {
    Blend(a0, Times5(RotL15(a1)), b1, Choose(b2, b3, m), c)
  }

  /** The second half: the new B word. */
  function MixB(b0: Word, a: Word): Word { RotL1(b0) ^ (a ^ ONES) }

  function Add(x: Word, y: Word): Word { x + y }
  function Sub(x: Word, y: Word): Word { x - y }
  function Xor(x: Word, y: Word): Word { x ^ y }
  function LoadWord(b: Word, m: Word): Word { RotL17(Add(b, m)) }

  // ----- The permutation -----

  /** The C index of step u: 8, 7, .., 0, 15, .., 9, over and over. */
  function CIndex(u: nat): (i: nat)
    ensures i < 16
  {
    (24 - u % 16) % 16
  }

  /** One PP step, in place: A[u mod 12] and B[u mod 16] change. */
  function Step(s: Core, m: seq<Word>, u: nat): (s': Core)
    requires IsCore(s) && |m| == 16
    ensures IsCore(s') && s'.c == s.c
  {
    var a := MixA(s.a[u % 12], s.a[(u + 11) % 12], s.b[(u + 13) % 16], s.b[(u + 9) % 16], s.b[(u + 6) % 16],
      s.c[CIndex(u)], m[u % 16]);
    Core(s.a[u % 12 := a], s.b[u % 16 := MixB(s.b[u % 16], a)], s.c)
  }

  function Steps(s: Core, m: seq<Word>, n: nat): (s': Core)
    requires IsCore(s) && |m| == 16
    ensures IsCore(s') && s'.c == s.c
  {
    if n == 0 then s else Step(Steps(s, m, n - 1), m, n - 1)
  }

  const STEPS: nat := 48

  /** One of the 36 additions of C words to A words, in the order of the code. */
  function AddC(a: seq<Word>, c: seq<Word>, k: nat): (a': seq<Word>)
    requires |a| == 12 && |c| == 16
    ensures |a'| == 12
  {
    var j := 11 - k % 12;
    a[j := Add(a[j], c[(j + 11 + 4 * (k / 12)) % 16])]
  }

  function AddCs(a: seq<Word>, c: seq<Word>, n: nat): (a': seq<Word>)
    requires |a| == 12 && |c| == 16
    ensures |a'| == 12
  {
    if n == 0 then a else AddC(AddCs(a, c, n - 1), c, n - 1)
  }

  function LoadB(b: seq<Word>, m: seq<Word>): (r: seq<Word>)
    requires |b| == |m| == 16
    ensures |r| == 16
  {
    seq(16, i requires 0 <= i < 16 => LoadWord(b[i], m[i]))
  }

  function XorW(a: seq<Word>, w: Counter): (r: seq<Word>)
    requires |a| == 12
    ensures |r| == 12
  {
    a[0 := Xor(a[0], w.low)][1 := Xor(a[1], w.high)]
  }

  function SubM(c: seq<Word>, m: seq<Word>): (r: seq<Word>)
    requires |c| == |m| == 16
    ensures |r| == 16
  {
    seq(16, i requires 0 <= i < 16 => Sub(c[i], m[i]))
  }

  /** The compression of one block under a counter. */
  function Compress(s: Core, m: seq<Word>, w: Counter): (s': Core)
    requires IsCore(s) && |m| == 16
    ensures IsCore(s')
  {
    var s1 := Steps(Core(XorW(s.a, w), LoadB(s.b, m), s.c), m, STEPS);
    Core(AddCs(s1.a, s1.c, 36), SubM(s1.c, m), s1.b)
  }

  // ----- Undoing words -----

  // A fact about sums or products is proved for the operators themselves, where it is a matter of
  // normal forms, and carried over to the named functions by congruence.

  function RotR1(x: Word): Word { (x >> 1) | (x << 31) }
  function RotR17(x: Word): Word { (x >> 17) | (x << 15) }

  /** 3 is a unit modulo 2^32. */
  function Third(x: Word): Word { 0xAAAAAAAB * x }

  function Unblend(y: Word, t: Word, b1: Word, k: Word, c: Word): Word { (Third((y ^ b1) ^ k) ^ c) ^ t }

  /** The A word before a step, from the one after it. */
  function UnmixA(a: Word, a1: Word, b1: Word, b2: Word, b3: Word, c: Word, m: Word): Word {
    Unblend(a, Times5(RotL15(a1)), b1, Choose(b2, b3, m), c)
  }

  function UnmixB(b: Word, a: Word): Word { RotR1(b ^ (a ^ ONES)) }

  function UnloadWord(b: Word, m: Word): Word { Sub(RotR17(b), m) }

  lemma Times3Is(x: Word)
    ensures Times3(x) == 3 * x
  {
    assert x << 1 == 2 * x;
  }

  lemma ThirdOfTriple(x: Word)
    ensures Third(3 * x) == x
  {
  }

  lemma ThirdIs(x: Word)
    ensures Third(x) == 0xAAAAAAAB * x
  {
  }

  lemma ThirdUndoesTimes3(x: Word)
    ensures Third(Times3(x)) == x && Times3(Third(x)) == x
  {
    hide Third, Times3;
    Times3Is(x);
    ThirdOfTriple(x);
    ThirdIs(x);
    Times3Is(0xAAAAAAAB * x);
  }

  lemma XorBack(y: Word, x: Word, t: Word, c: Word)
    requires y == (x ^ t) ^ c
    ensures (y ^ c) ^ t == x
  {
  }

  lemma UnblendOf(x: Word, t: Word, b1: Word, k: Word, c: Word)
    ensures Unblend((Times3((x ^ t) ^ c) ^ b1) ^ k, t, b1, k, c) == x
  {
    hide Times3, Third;
    ThirdUndoesTimes3((x ^ t) ^ c);
    assert Third((((Times3((x ^ t) ^ c) ^ b1) ^ k) ^ b1) ^ k) == (x ^ t) ^ c;
    XorBack(Third((((Times3((x ^ t) ^ c) ^ b1) ^ k) ^ b1) ^ k), x, t, c);
  }

  lemma BlendOf(x: Word, t: Word, b1: Word, k: Word, c: Word)
    ensures Blend((Third((x ^ b1) ^ k) ^ c) ^ t, t, b1, k, c) == x
  {
    hide Times3, Third;
    ThirdUndoesTimes3((x ^ b1) ^ k);
    assert Times3((((Third((x ^ b1) ^ k) ^ c) ^ t) ^ t) ^ c) == (x ^ b1) ^ k;
    XorBack(Times3((((Third((x ^ b1) ^ k) ^ c) ^ t) ^ t) ^ c), x, b1, k);
  }

  lemma BlendIs(x: Word, t: Word, b1: Word, k: Word, c: Word)
    ensures Blend(x, t, b1, k, c) == (Times3((x ^ t) ^ c) ^ b1) ^ k
    ensures Unblend(x, t, b1, k, c) == (Third((x ^ b1) ^ k) ^ c) ^ t
  {
  }

  lemma UnblendBlend(x: Word, t: Word, b1: Word, k: Word, c: Word)
    ensures Unblend(Blend(x, t, b1, k, c), t, b1, k, c) == x
    ensures Blend(Unblend(x, t, b1, k, c), t, b1, k, c) == x
  {
    hide Blend, Unblend, Times3, Third;
    BlendIs(x, t, b1, k, c);
    UnblendOf(x, t, b1, k, c);
    BlendOf(x, t, b1, k, c);
  }

  lemma UnmixMixA(x: Word, a1: Word, b1: Word, b2: Word, b3: Word, c: Word, m: Word)
    ensures UnmixA(MixA(x, a1, b1, b2, b3, c, m), a1, b1, b2, b3, c, m) == x
    ensures MixA(UnmixA(x, a1, b1, b2, b3, c, m), a1, b1, b2, b3, c, m) == x
  {
    hide Blend, Unblend, Times5, RotL15, Choose;
    UnblendBlend(x, Times5(RotL15(a1)), b1, Choose(b2, b3, m), c);
  }

  lemma UnmixMixB(b: Word, a: Word)
    ensures UnmixB(MixB(b, a), a) == b && MixB(UnmixB(b, a), a) == b
  {
  }

  lemma SubOfSum(x: Word, y: Word)
    ensures Sub(x + y, y) == x && Add(x - y, y) == x
  {
  }

  lemma AddIs(x: Word, y: Word)
    ensures Add(x, y) == x + y && Sub(x, y) == x - y
  {
  }

  lemma AddSub(x: Word, y: Word)
    ensures Sub(Add(x, y), y) == x && Add(Sub(x, y), y) == x
  {
    hide Add, Sub;
    AddIs(x, y);
    SubOfSum(x, y);
  }

  lemma SumsAgree(x: Word, p: Word, q: Word)
    ensures Add(x + p, q) == Add(x, p + q)
  {
  }

  lemma AddAssoc(x: Word, p: Word, q: Word)
    ensures Add(Add(x, p), q) == Add(x, Add(p, q))
  {
    hide Add;
    AddIs(x, p);
    AddIs(p, q);
    SumsAgree(x, p, q);
  }

  lemma Rot17Undoes(x: Word)
    ensures RotR17(RotL17(x)) == x && RotL17(RotR17(x)) == x
  {
  }

  lemma UnloadLoad(b: Word, m: Word)
    ensures UnloadWord(LoadWord(b, m), m) == b && LoadWord(UnloadWord(b, m), m) == b
  {
    hide Add, Sub, RotR17, RotL17;
    Rot17Undoes(Add(b, m));
    AddSub(b, m);
    AddSub(RotR17(b), m);
    Rot17Undoes(b);
  }

  lemma XorXor(x: Word, y: Word)
    ensures Xor(Xor(x, y), y) == x
  {
  }

  // ----- Undoing steps -----

  /** A step undone: first B, then A, both from words the step did not change. */
  function Unstep(s: Core, m: seq<Word>, u: nat): (s': Core)
    requires IsCore(s) && |m| == 16
    ensures IsCore(s') && s'.c == s.c
  {
    var a := s.a[u % 12];
    var x := UnmixA(a, s.a[(u + 11) % 12], s.b[(u + 13) % 16], s.b[(u + 9) % 16], s.b[(u + 6) % 16], s.c[CIndex(u)], m[u % 16]);
    Core(s.a[u % 12 := x], s.b[u % 16 := UnmixB(s.b[u % 16], a)], s.c)
  }

  lemma UnstepStep(s: Core, m: seq<Word>, u: nat)
    requires IsCore(s) && |m| == 16
    ensures Unstep(Step(s, m, u), m, u) == s
  {
    hide MixA, MixB, UnmixA, UnmixB, CIndex;
    var i, i1, j, j1, j2, j3 := u % 12, (u + 11) % 12, u % 16, (u + 13) % 16, (u + 9) % 16, (u + 6) % 16;
    var a := MixA(s.a[i], s.a[i1], s.b[j1], s.b[j2], s.b[j3], s.c[CIndex(u)], m[j]);
    UnmixMixA(s.a[i], s.a[i1], s.b[j1], s.b[j2], s.b[j3], s.c[CIndex(u)], m[j]);
    UnmixMixB(s.b[j], a);
    OtherWords(u);
    assert Unstep(Step(s, m, u), m, u).a == s.a;
    assert Unstep(Step(s, m, u), m, u).b == s.b;
  }

  lemma StepUnstep(s: Core, m: seq<Word>, u: nat)
    requires IsCore(s) && |m| == 16
    ensures Step(Unstep(s, m, u), m, u) == s
  {
    hide MixA, MixB, UnmixA, UnmixB, CIndex;
    var i, i1, j, j1, j2, j3 := u % 12, (u + 11) % 12, u % 16, (u + 13) % 16, (u + 9) % 16, (u + 6) % 16;
    UnmixMixA(s.a[i], s.a[i1], s.b[j1], s.b[j2], s.b[j3], s.c[CIndex(u)], m[j]);
    UnmixMixB(s.b[j], s.a[i]);
    OtherWords(u);
    assert Step(Unstep(s, m, u), m, u).a == s.a;
    assert Step(Unstep(s, m, u), m, u).b == s.b;
  }

  /** A step reads other words than the two it changes. */
  lemma OtherWords(u: nat)
    ensures (u + 11) % 12 != u % 12 && (u + 13) % 16 != u % 16 && (u + 9) % 16 != u % 16 && (u + 6) % 16 != u % 16
  {
  }

  function Unsteps(s: Core, m: seq<Word>, n: nat): (s': Core)
    requires IsCore(s) && |m| == 16
    ensures IsCore(s') && s'.c == s.c
    decreases n
  {
    if n == 0 then s else Unsteps(Unstep(s, m, n - 1), m, n - 1)
  }

  lemma {:induction false} StepsInverse(s: Core, m: seq<Word>, n: nat)
    requires IsCore(s) && |m| == 16
    ensures Unsteps(Steps(s, m, n), m, n) == s
    ensures Steps(Unsteps(s, m, n), m, n) == s
    decreases n
  {
    hide Step, Unstep;
    if n > 0 {
      StepsInverse(s, m, n - 1);
      UnstepStep(Steps(s, m, n - 1), m, n - 1);
      StepsInverse(Unstep(s, m, n - 1), m, n - 1);
      StepUnstep(s, m, n - 1);
    }
  }

  // ----- Undoing the additions -----

  /** What the 36 additions come to, for each A word. */
  function SumC(c: seq<Word>, j: nat): Word
    requires |c| == 16
  {
    Add(Add(c[(j + 11) % 16], c[(j + 15) % 16]), c[(j + 3) % 16])
  }

  lemma AddCIs(a: seq<Word>, c: seq<Word>, p: nat, n: nat)
    requires |a| == 12 && |c| == 16 && n < 12
    ensures AddC(a, c, 12 * p + n) == a[11 - n := Add(a[11 - n], c[(11 - n + 11 + 4 * p) % 16])]
  {
    hide Add;
    assert (12 * p + n) % 12 == n && (12 * p + n) / 12 == p;
  }

  lemma AddCsNext(a: seq<Word>, c: seq<Word>, k: nat)
    requires |a| == 12 && |c| == 16
    ensures AddCs(a, c, k + 1) == AddC(AddCs(a, c, k), c, k)
  {
  }

  lemma {:induction false} AddCsPass(a: seq<Word>, c: seq<Word>, p: nat, n: nat, j: nat)
    requires |a| == 12 && |c| == 16 && p < 3 && n <= 12 && j < 12
    ensures AddCs(a, c, 12 * p + n)[j]
         == if j >= 12 - n then Add(AddCs(a, c, 12 * p)[j], c[(j + 11 + 4 * p) % 16]) else AddCs(a, c, 12 * p)[j]
    decreases n
  {
    hide Add, AddC, AddCs;
    if n > 0 {
      AddCsPass(a, c, p, n - 1, j);
      AddCsNext(a, c, 12 * p + n - 1);
      AddCIs(AddCs(a, c, 12 * p + n - 1), c, p, n - 1);
    }
  }

  lemma AddCsStart(a: seq<Word>, c: seq<Word>)
    requires |a| == 12 && |c| == 16
    ensures AddCs(a, c, 0) == a
  {
  }

  lemma AddCsSum(a: seq<Word>, c: seq<Word>, j: nat)
    requires |a| == 12 && |c| == 16 && j < 12
    ensures AddCs(a, c, 36)[j] == Add(a[j], SumC(c, j))
  {
    hide Add, AddC, AddCs;
    AddCsStart(a, c);
    AddCsPass(a, c, 0, 12, j);
    AddCsPass(a, c, 1, 12, j);
    AddCsPass(a, c, 2, 12, j);
    var p, q, r := c[(j + 11) % 16], c[(j + 15) % 16], c[(j + 3) % 16];
    assert AddCs(a, c, 12)[j] == Add(a[j], p);
    assert AddCs(a, c, 24)[j] == Add(Add(a[j], p), q);
    assert (j + 19) % 16 == (j + 3) % 16;
    AddAssoc(a[j], p, q);
    AddAssoc(a[j], Add(p, q), r);
  }

  function SubCs(a: seq<Word>, c: seq<Word>): (r: seq<Word>)
    requires |a| == 12 && |c| == 16
    ensures |r| == 12
  {
    seq(12, j requires 0 <= j < 12 => Sub(a[j], SumC(c, j)))
  }

  lemma SumsUndo(a: seq<Word>, c: seq<Word>)
    requires |a| == 12 && |c| == 16
    ensures SubCs(AddCs(a, c, 36), c) == a && AddCs(SubCs(a, c), c, 36) == a
  {
    hide Add, Sub, SumC, AddC;
    forall j | 0 <= j < 12 ensures SubCs(AddCs(a, c, 36), c)[j] == a[j] && AddCs(SubCs(a, c), c, 36)[j] == a[j] {
      AddCsSum(a, c, j);
      AddCsSum(SubCs(a, c), c, j);
      AddSub(a[j], SumC(c, j));
    }
  }

  // ----- The inverse -----

  function UnloadB(b: seq<Word>, m: seq<Word>): (r: seq<Word>)
    requires |b| == |m| == 16
    ensures |r| == 16
  {
    seq(16, i requires 0 <= i < 16 => UnloadWord(b[i], m[i]))
  }

  function AddM(b: seq<Word>, m: seq<Word>): (r: seq<Word>)
    requires |b| == |m| == 16
    ensures |r| == 16
  {
    seq(16, i requires 0 <= i < 16 => Add(b[i], m[i]))
  }

  /** The compression run backwards. */
  function Decompress(s: Core, m: seq<Word>, w: Counter): (s': Core)
    requires IsCore(s) && |m| == 16
    ensures IsCore(s')
  {
    var c := AddM(s.b, m);
    var s1 := Unsteps(Core(SubCs(s.a, c), s.c, c), m, STEPS);
    Core(XorW(s1.a, w), UnloadB(s1.b, m), c)
  }

  lemma LoadUnload(b: seq<Word>, m: seq<Word>)
    requires |b| == |m| == 16
    ensures UnloadB(LoadB(b, m), m) == b && LoadB(UnloadB(b, m), m) == b
  {
    hide LoadWord, UnloadWord;
    forall i | 0 <= i < 16 ensures UnloadB(LoadB(b, m), m)[i] == b[i] && LoadB(UnloadB(b, m), m)[i] == b[i] {
      UnloadLoad(b[i], m[i]);
    }
  }

  lemma SubAddM(c: seq<Word>, m: seq<Word>)
    requires |c| == |m| == 16
    ensures AddM(SubM(c, m), m) == c && SubM(AddM(c, m), m) == c
  {
    hide Add, Sub;
    forall i | 0 <= i < 16 ensures AddM(SubM(c, m), m)[i] == c[i] && SubM(AddM(c, m), m)[i] == c[i] { AddSub(c[i], m[i]); }
  }

  lemma XorWTwice(a: seq<Word>, w: Counter)
    requires |a| == 12
    ensures XorW(XorW(a, w), w) == a
  {
    hide Xor;
    XorXor(a[0], w.low);
    XorXor(a[1], w.high);
  }

  /** For a fixed block and counter the compression is a bijection on the 44 state words. */
  lemma CompressIsBijective(s: Core, m: seq<Word>, w: Counter)
    requires IsCore(s) && |m| == 16
    ensures Decompress(Compress(s, m, w), m, w) == s
    ensures Compress(Decompress(s, m, w), m, w) == s
  {
    hide Steps, Unsteps, AddCs, SubCs, LoadB, UnloadB, AddM, SubM, XorW;
    var start := Core(XorW(s.a, w), LoadB(s.b, m), s.c);
    StepsInverse(start, m, STEPS);
    var s1 := Steps(start, m, STEPS);
    SumsUndo(s1.a, s1.c);
    SubAddM(s1.c, m);
    LoadUnload(s.b, m);
    XorWTwice(s.a, w);

    var c := AddM(s.b, m);
    var back := Core(SubCs(s.a, c), s.c, c);
    StepsInverse(back, m, STEPS);
    var s0 := Unsteps(back, m, STEPS);
    XorWTwice(s0.a, w);
    LoadUnload(s0.b, m);
    SumsUndo(s.a, c);
    SubAddM(s.b, m);
  }

  // ----- The counter -----

  function Next(w: Counter): Counter { Counter(if w.low + 1 == 0 then w.high + 1 else w.high, w.low + 1) }
  function Previous(w: Counter): Counter { Counter(if w.low == 0 then w.high - 1 else w.high, w.low - 1) }

  lemma PreviousNext(w: Counter)
    ensures Previous(Next(w)) == w
  {
  }
}
