module ShabalUnrolled {
  /* The scalar implementation of src/shabal64.s: B unrolled into an array of 64 words, the additions
     of C to A regrouped into vectors, W in one 64-bit register. */

  import opened Shabal
  import opened ShabalHash

  // ----- One step -----

  /** The A word in the order of the instructions. */
  function AsmBlend(t: Word, a: Word, x6: Word, x9: Word, x13: Word, c: Word, m: Word): Word {
    Times3((t ^ a) ^ c) ^ (((!x6) & x9) ^ (m ^ x13))
  }

  function AsmA(previous: Word, a: Word, x6: Word, x9: Word, x13: Word, c: Word, m: Word): Word {
    AsmBlend(Times5(RotL15(previous)), a, x6, x9, x13, c, m)
  }

  /** The new B word: the old one is inverted, not the A word. */
  function AsmB(x0: Word, a: Word): Word { RotL1(!x0) ^ a }

  lemma ArgumentOrder(t: Word, a: Word, c: Word)
    ensures Times3((t ^ a) ^ c) == Times3((a ^ t) ^ c)
  {
  }

  lemma LastXors(t: Word, x6: Word, x9: Word, x13: Word, m: Word)
    ensures t ^ (((!x6) & x9) ^ (m ^ x13)) == (t ^ x13) ^ Choose(x9, x6, m)
  {
  }

  lemma AsmBlendIsBlend(t: Word, a: Word, x6: Word, x9: Word, x13: Word, c: Word, m: Word)
    ensures AsmBlend(t, a, x6, x9, x13, c, m) == Blend(a, t, x13, Choose(x9, x6, m), c)
  {
    hide Times3, Choose;
    ArgumentOrder(t, a, c);
    LastXors(Times3((a ^ t) ^ c), x6, x9, x13, m);
  }

  lemma AsmAIsMixA(previous: Word, a: Word, x6: Word, x9: Word, x13: Word, c: Word, m: Word)
    ensures AsmA(previous, a, x6, x9, x13, c, m) == MixA(a, previous, x13, x9, x6, c, m)
  {
    hide Times5, RotL15, Choose, Blend, AsmBlend;
    AsmBlendIsBlend(Times5(RotL15(previous)), a, x6, x9, x13, c, m);
  }

  lemma RotNot(x: Word)
    ensures RotL1(!x) == !RotL1(x)
  {
  }

  lemma NotXor(x: Word, a: Word)
    ensures (!x) ^ a == x ^ (a ^ ONES)
  {
  }

  lemma InvertedIsMixB(x0: Word, a: Word)
    ensures RotL1(!x0) ^ a == MixB(x0, a)
  {
    hide RotL1;
    RotNot(x0);
    NotXor(RotL1(x0), a);
    assert RotL1(!x0) ^ a == (!RotL1(x0)) ^ a;
  }

  lemma AsmBIsMixB(x0: Word, a: Word)
    ensures AsmB(x0, a) == MixB(x0, a)
  {
    hide RotL1, MixB;
    InvertedIsMixB(x0, a);
  }

  // ----- Unrolled and circular B -----

  /** The circular B array at step u, as words u .. u + 15 of the unrolled one. */
  function Window(bx: seq<Word>, u: nat): (b: seq<Word>)
    requires |bx| == 64 && u <= 48
    ensures |b| == 16
  {
    seq(16, i requires 0 <= i < 16 => bx[u + (i + 48 - u) % 16])
  }

  lemma WindowAt(bx: seq<Word>, u: nat, k: nat)
    requires |bx| == 64 && u <= 48 && k < 16
    ensures Window(bx, u)[(u + k) % 16] == bx[u + k]
  {
    assert ((u + k) % 16 + 48 - u) % 16 == k;
  }

  lemma OffsetMoves(i: nat, u: nat)
    requires i < 16 && u < 48
    ensures var k := (i + 48 - u) % 16;
            (i + 48 - (u + 1)) % 16 == (if k == 0 then 15 else k - 1) && (k == 0 <==> i == u % 16)
  {
  }

  /** Storing word u + 16 and moving on replaces word u of the circle. */
  lemma WindowMoves(bx: seq<Word>, u: nat, x: Word)
    requires |bx| == 64 && u < 48
    ensures Window(bx[u + 16 := x], u + 1) == Window(bx, u)[u % 16 := x]
  {
    var after, circle := Window(bx[u + 16 := x], u + 1), Window(bx, u)[u % 16 := x];
    forall i | 0 <= i < 16 ensures after[i] == circle[i] {
      OffsetMoves(i, u);
    }
  }

  lemma UnrolledStep(s: Core, bx: seq<Word>, m: seq<Word>, u: nat, a: Word, b: Word)
    requires IsCore(s) && |m| == 16 && |bx| == 64 && u < 48 && s.b == Window(bx, u)
    requires a == AsmA(s.a[(u + 11) % 12], s.a[u % 12], bx[u + 6], bx[u + 9], bx[u + 13], s.c[CIndex(u)], m[u % 16])
    requires b == AsmB(bx[u], a)
    ensures Step(s, m, u) == Core(s.a[u % 12 := a], Window(bx[u + 16 := b], u + 1), s.c)
  {
    hide MixA, MixB, AsmA, AsmB, CIndex, Window;
    AsmAIsMixA(s.a[(u + 11) % 12], s.a[u % 12], bx[u + 6], bx[u + 9], bx[u + 13], s.c[CIndex(u)], m[u % 16]);
    AsmBIsMixB(bx[u], a);
    WindowAt(bx, u, 0);
    WindowAt(bx, u, 6);
    WindowAt(bx, u, 9);
    WindowAt(bx, u, 13);
    WindowMoves(bx, u, b);
  }

  // ----- Regrouped sums -----

  lemma AddSwap(p: Word, q: Word)
    ensures Add(p, q) == Add(q, p)
  {
  }

  /** a + (x + z) + y, a + x + y + z with y last, and a + y + (x + z) are all a + ((p + q) + r). */
  lemma Regroup(a: Word, x: Word, y: Word, z: Word)
    ensures Add(Add(a, Add(x, z)), y) == Add(a, Add(Add(z, y), x))
    ensures Add(Add(Add(a, x), y), z) == Add(a, Add(Add(z, x), y))
    ensures Add(Add(a, y), Add(x, z)) == Add(a, Add(Add(x, y), z))
  {
    hide Add;
    AddAssoc(a, Add(x, z), y);
    AddAssoc(x, z, y);
    AddSwap(x, Add(z, y));
    AddAssoc(a, x, y);
    AddAssoc(a, Add(x, y), z);
    AddSwap(Add(x, y), z);
    AddAssoc(z, x, y);
    AddAssoc(a, y, Add(x, z));
    AddSwap(y, Add(x, z));
    AddAssoc(x, z, y);
    AddSwap(z, y);
    AddAssoc(x, y, z);
  }

  // ----- The counter -----

  function Low(w: bv64): Word { (w & 0xFFFFFFFF) as Word }
  function High(w: bv64): Word { (w >> 32) as Word }
  function Split(w: bv64): Counter { Counter(High(w), Low(w)) }

  lemma SplitNext(w: bv64)
    ensures Split(w + 1) == Next(Split(w))
  {
  }

  // ----- The context -----

  class AsmContext {
    const a: array<Word>
    const b: array<Word>
    const c: array<Word>
    var w: bv64
    var buf: seq<Byte>
    var ptr: nat
    const outSize: nat
    const iv: Core                  // the precomputed state of the output size
    ghost var msg: seq<Byte>

    ghost predicate Shape()
      reads this, a, b, c
    {
      a.Length == 12 && b.Length == 16 && c.Length == 16 && a != b && b != c && a != c
    }

    ghost function State(): (s: Core)
      requires Shape()
      reads this, a, b, c
      ensures IsCore(s)
    {
      Core(a[..], b[..], c[..])
    }

    /** The 48 steps: the stack array, one word a step; each store of a new B word waits a step. */
    method Rounds(bx: array<Word>, m: seq<Word>, ghost s0: Core)
      requires Shape() && bx.Length == 64 && |m| == 16 && IsCore(s0) && bx != a && bx != c && bx != b
      requires a[..] == s0.a && c[..] == s0.c && Window(bx[..], 0) == s0.b
      modifies a, bx
      ensures Core(a[..], bx[48..], c[..]) == Steps(s0, m, STEPS)
    {
      hide AsmA, AsmB, CIndex, Window, Step;
      var eax, ecx: Word := a[11], 0;
      var u := 0;
      ghost var pending := bx[..];                  // bx with the waiting store done
      while u < STEPS
        invariant 0 <= u <= STEPS && Shape() && c[..] == s0.c
        invariant eax == a[(u + 11) % 12]
        invariant pending == if u == 0 then bx[..] else bx[..][u + 15 := ecx]
        invariant Core(a[..], Window(pending, u), c[..]) == Steps(s0, m, u)
      {
        if u > 0 { bx[u + 15] := ecx; }
        assert bx[..] == pending;
        ghost var s := Core(a[..], Window(bx[..], u), c[..]);
        eax := AsmA(eax, a[u % 12], bx[u + 6], bx[u + 9], bx[u + 13], c[CIndex(u)], m[u % 16]);
        ecx := AsmB(bx[u], eax);
        UnrolledStep(s, bx[..], m, u, eax, ecx);
        a[u % 12] := eax;
        pending := bx[..][u + 16 := ecx];
        assert (u + 1 + 11) % 12 == u % 12;
        u := u + 1;
      }
      bx[63] := ecx;
      assert bx[..] == pending;
      WindowEnds(bx[..]);
    }

    /** B + M, rotated, into the first 16 words of the stack array. */
    method LoadWords(bx: array<Word>, m: seq<Word>)
      requires Shape() && bx.Length == 64 && |m| == 16 && bx != a && bx != b && bx != c
      modifies bx
      ensures bx[..16] == LoadB(b[..], m)
    {
      hide LoadWord;
      var j := 0;
      while j < 16
        invariant 0 <= j <= 16 && forall i | 0 <= i < j :: bx[i] == LoadWord(b[i], m[i])
      {
        bx[j] := LoadWord(b[j], m[j]);
        j := j + 1;
      }
    }

    /** C words are added to A words as four vectors: C[15] C[0..3], C[3..7], C[7..11], C[11..15]. */
    method AddVectors()
      requires Shape()
      modifies a
      ensures a[..] == AddCs(old(a[..]), c[..], 36)
    {
      hide Add, SumC, AddCs;
      ghost var a0 := a[..];
      var i := 0;
      while i < 4
        invariant 0 <= i <= 4
        invariant forall j | 0 <= j < 12 :: a[j] == if j % 4 < i then Add(a0[j], SumC(c[..], j)) else a0[j]
      {
        AddLane(i);
        i := i + 1;
      }
      forall j | 0 <= j < 12 ensures a[j] == AddCs(a0, c[..], 36)[j] { AddCsSum(a0, c[..], j); }
    }

    /** What the vector instructions do in lane i. */
    method AddLane(i: nat)
      requires Shape() && i < 4
      modifies a
      ensures forall j | 0 <= j < 12 :: a[j] == if j % 4 == i then Add(old(a[j]), SumC(c[..], j)) else old(a[j])
    {
      hide Add, SumC;
      ghost var a0 := a[..];
      var x0, x1, x2, x3 := c[(15 + i) % 16], c[3 + i], c[7 + i], c[11 + i];
      var a4, a5, a6 := a[i], a[4 + i], a[8 + i];
      a5 := Add(a5, x1);
      x1 := Add(x1, x3);
      a5 := Add(a5, x2);
      a6 := Add(a6, x2);
      a4 := Add(a4, x1);
      a5 := Add(a5, x0);
      a6 := Add(a6, x1);
      a4 := Add(a4, x0);
      GroupedSums(a0, c[..], i);
      a[i], a[4 + i], a[8 + i] := a4, a5, a6;
    }

    /** One round of the loop Lm0. */
    method InnerBlock(m: seq<Word>)
      requires Shape() && |m| == 16
      modifies a, b, c, this`w
      ensures Shape() && State() == Compress(old(State()), m, Split(old(w))) && w == old(w) + 1
    {
      hide LoadB, XorW, AddCs, SubM, Steps, Low, High, Next, Window;
      ghost var s := State();
      var bx := new Word[64];
      LoadWords(bx, m);
      XorCounter();
      ghost var s0 := Core(a[..], bx[..16], c[..]);
      WindowEnds(bx[..]);
      Rounds(bx, m, s0);
      StoreB(m);
      AddVectors();
      StoreC(bx);
      w := w + 1;
      assert State() == Compress(s, m, Split(old(w)));
    }

    method XorCounter()
      requires Shape()
      modifies a
      ensures a[..] == XorW(old(a[..]), Split(w))
    {
      hide Xor, Low, High;
      a[0] := Xor(a[0], Low(w));
      a[1] := Xor(a[1], High(w));
    }

    method StoreB(m: seq<Word>)
      requires Shape() && |m| == 16
      modifies b
      ensures b[..] == SubM(c[..], m)
    {
      hide Sub;
      var j := 0;
      while j < 16
        invariant 0 <= j <= 16 && forall i | 0 <= i < j :: b[i] == Sub(c[i], m[i])
      {
        b[j] := Sub(c[j], m[j]);
        j := j + 1;
      }
    }

    method StoreC(bx: array<Word>)
      requires Shape() && bx.Length == 64 && bx != c
      modifies c
      ensures c[..] == bx[48..]
    {
      var j := 0;
      while j < 16
        invariant 0 <= j <= 16 && forall i | 0 <= i < j :: c[i] == bx[48 + i]
      {
        c[j] := bx[48 + j];
        j := j + 1;
      }
    }

    // ----- Streaming -----

    ghost predicate Valid()
      reads this, a, b, c
    {
      && Shape() && IsCore(iv) && outSize <= 512 && outSize % 32 == 0
      && ptr == |msg| - Whole(msg) && Keeps(buf, msg[Whole(msg)..])
      && Split(w) == CounterAfter(|msg| / BLOCK)
      && State() == Absorbed(iv, msg)
    }

    /** shabal_init: the precomputed state, and W already at 1. */
    constructor (outSize: nat, iv: Core)
      requires IsCore(iv) && outSize <= 512 && outSize % 32 == 0
      ensures Valid() && fresh(a) && fresh(b) && fresh(c) && msg == [] && this.iv == iv && this.outSize == outSize
    {
      this.outSize, this.iv := outSize, iv;
      a := new Word[12](i requires 0 <= i < 12 => iv.a[i]);
      b := new Word[16](i requires 0 <= i < 16 => iv.b[i]);
      c := new Word[16](i requires 0 <= i < 16 => iv.c[i]);
      w, ptr, msg := 1, 0, [];
      buf := seq(BLOCK, _ => 0);
      new;
      assert a[..] == iv.a && b[..] == iv.b && c[..] == iv.c;
      assert msg[..0] == [];
    }

    ghost predicate Aligned(done: seq<Byte>)
      reads this, a, b, c
    {
      && Shape() && IsCore(iv) && |done| % BLOCK == 0
      && (State(), Split(w)) == Absorb(iv, CounterAfter(0), done)
    }

    /** shabal_inner: the blocks of the data, one after another. */
    method ShabalInner(data: seq<Byte>, num: nat, ghost done: seq<Byte>)
      requires Aligned(done) && |data| == num * BLOCK
      modifies a, b, c, this`w
      ensures Aligned(done + data)
    {
      hide Compress, BlockWords, Split, Next;
      var k := 0;
      assert done + data[..0] == done;
      while k < num
        invariant 0 <= k <= num && Aligned(done + data[..k * BLOCK])
      {
        var block := data[k * BLOCK..k * BLOCK + BLOCK];
        ghost var before := done + data[..k * BLOCK];
        AbsorbOne(State(), Split(w), block);
        SplitNext(w);
        InnerBlock(BlockWords(block));
        AbsorbConcat(iv, CounterAfter(0), before, block);
        assert done + data[..(k + 1) * BLOCK] == before + block;
        k := k + 1;
      }
      assert data[..num * BLOCK] == data;
    }

    method KeepRest(rest: seq<Byte>, ghost done: seq<Byte>)
      requires Aligned(done) && |rest| < BLOCK && |buf| == BLOCK && outSize <= 512 && outSize % 32 == 0
      modifies this`buf, this`ptr, this`msg
      ensures Valid() && msg == done + rest
    {
      hide Compress, BlockWords, Split, Next;
      AbsorbCounts(iv, 0, done);
      StreamChunk(iv, done + rest, done, rest);
      buf := rest + buf[|rest|..];
      ptr := |rest|;
      msg := done + rest;
    }

    /** The chunk does not complete a block. */
    method BufferOnly(data: seq<Byte>)
      requires Valid() && |data| < BLOCK - ptr
      modifies this`buf, this`ptr, this`msg
      ensures Valid() && msg == old(msg) + data
    {
      hide Compress, BlockWords, Split, Next, Absorb;
      ghost var done, all := msg[..Whole(msg)], msg + data;
      AbsorbedIs(iv, msg);
      assert buf[..ptr] == msg[Whole(msg)..];
      StreamChunk(iv, all, done, buf[..ptr] + data);
      buf := buf[..ptr] + data + buf[ptr + |data|..];
      ptr := ptr + |data|;
      msg := all;
    }

    /** The message before the buffered bytes has been absorbed. */
    lemma AlignedStart(done: seq<Byte>)
      requires Valid() && done == msg[..Whole(msg)]
      ensures Aligned(done) && msg == done + buf[..ptr] && |buf| == BLOCK
    {
      hide Compress, BlockWords, Split, Next, Absorb;
      AbsorbedIs(iv, msg);
      AbsorbCounts(iv, 0, done);
    }

    /** The first bytes complete the buffered block. */
    method TakeHead(data: seq<Byte>, ghost start: seq<Byte>) returns (rest: seq<Byte>, ghost done: seq<Byte>)
      requires Aligned(start) && |buf| == BLOCK && 0 < ptr < BLOCK && BLOCK - ptr <= |data|
      modifies a, b, c, this`w, this`buf
      ensures Aligned(done) && |buf| == BLOCK && done + rest == start + old(buf)[..ptr] + data
    {
      hide Compress, BlockWords, Split, Next, Absorb;
      var head := BLOCK - ptr;
      buf := buf[..ptr] + data[..head];
      ShabalInner(buf, 1, start);
      done := start + buf;
      rest := data[head..];
    }

    /** Then as many full blocks as there are. */
    method TakeBlocks(data: seq<Byte>, ghost start: seq<Byte>) returns (rest: seq<Byte>, ghost done: seq<Byte>)
      requires Aligned(start)
      modifies a, b, c, this`w
      ensures Aligned(done) && |rest| < BLOCK && done + rest == start + data
    {
      hide Compress, BlockWords, Split, Next, Absorb;
      rest, done := data, start;
      var num := |data| / BLOCK;
      if num != 0 {
        ShabalInner(data[..num * BLOCK], num, start);
        done := start + data[..num * BLOCK];
        rest := data[num * BLOCK..];
      }
    }

    /** shabal. */
    method Update(data: seq<Byte>)
      requires Valid()
      modifies this, a, b, c
      ensures Valid() && msg == old(msg) + data
    {
      hide Compress, BlockWords, Split, Next, Absorb, Absorbed;
      if |data| < BLOCK - ptr {
        BufferOnly(data);
        return;
      }
      ghost var all, done := msg + data, msg[..Whole(msg)];
      AlignedStart(done);
      var rest := data;
      if ptr != 0 { rest, done := TakeHead(data, done); }
      assert done + rest == all;
      hide Aligned;
      rest, done := TakeBlocks(rest, done);
      KeepRest(rest, done);
    }

    /** The extra byte, then zeros, eight at a time: they fill the buffer, and what they overwrite
        beyond it is the ptr field. */
    method PadBuffer(pad: Byte)
      requires |buf| == BLOCK && ptr < BLOCK
      modifies this`buf, this`ptr
      ensures buf == Padded(old(buf)[..old(ptr)], pad)
    {
      var fields := buf + [ptr as Byte] + seq(7, _ => 0);
      fields := fields[ptr := pad];
      ghost var stored := fields;
      var at, count := ptr + 1, (70 - ptr) / 8;
      ghost var end := at + 8 * count;
      ZerosCover(ptr);
      while count > 0
        invariant ptr + 1 <= at && at + 8 * count == end && |fields| == BLOCK + 8
        invariant forall i | 0 <= i < BLOCK + 8 :: fields[i] == if ptr + 1 <= i < at then 0 else stored[i]
      {
        fields := fields[..at] + seq(8, _ => 0) + fields[at + 8..];
        at := at + 8;
        count := count - 1;
      }
      buf := fields[..BLOCK];
      if at > BLOCK { ptr := 0; }
    }

    /** The final block is compressed four times; each step of W is taken back. */
    method Finalise()
      requires Shape() && |buf| == BLOCK
      modifies a, b, c, this`w
      ensures Shape() && State() == Repeat(old(State()), BlockWords(buf), Split(old(w)), 4)
    {
      hide Compress, BlockWords, Split;
      ghost var s, w0 := State(), w;
      var m, z := BlockWords(buf), 0;
      while z < 4
        invariant 0 <= z <= 4 && Shape() && w == w0 && State() == Repeat(s, m, Split(w0), z)
      {
        InnerBlock(m);
        DecrementUndoes(w0);
        w := w - 1;
        z := z + 1;
      }
    }

    /** shabal_close. */
    method Close(ub: Byte, n: nat) returns (out: seq<Word>)
      requires Valid() && n < 8
      modifies a, b, c, this`w, this`buf, this`ptr
      ensures out == Digest(iv, old(msg), ub, n, outSize / 32)
    {
      hide Compress, BlockWords, Split, Next, Absorbed, PadByte, PadByteAsm, Repeat, Padded;
      PadBytesAgree(ub, n);
      assert buf[..ptr] == msg[Whole(msg)..];
      PadBuffer(PadByteAsm(ub, n));
      Finalise();
      out := c[16 - outSize / 32..];
    }
  }

  /** Each A word gets the same three C words as in the sequential additions. */
  lemma GroupedSums(a: seq<Word>, c: seq<Word>, i: nat)
    requires |a| == 12 && |c| == 16 && i < 4
    ensures Add(Add(a[i], Add(c[3 + i], c[11 + i])), c[(15 + i) % 16]) == Add(a[i], SumC(c, i))
    ensures Add(Add(Add(a[4 + i], c[3 + i]), c[7 + i]), c[(15 + i) % 16]) == Add(a[4 + i], SumC(c, 4 + i))
    ensures Add(Add(a[8 + i], c[7 + i]), Add(c[3 + i], c[11 + i])) == Add(a[8 + i], SumC(c, 8 + i))
  {
    hide Add;
    Regroup(a[i], c[3 + i], c[(15 + i) % 16], c[11 + i]);
    Regroup(a[4 + i], c[3 + i], c[7 + i], c[(15 + i) % 16]);
    Regroup(a[8 + i], c[3 + i], c[7 + i], c[11 + i]);
  }

  lemma DecrementUndoes(w: bv64)
    ensures (w + 1) - 1 == w
  {
  }

  /** shabal_close clears quadwords from the byte after the padding byte on: they cover the rest of
      the buffer, and beyond it at most the eight bytes of the ptr field. */
  lemma ZerosCover(ptr: nat)
    requires ptr < BLOCK
    ensures BLOCK <= ptr + 1 + 8 * ((70 - ptr) / 8) <= BLOCK + 8
  {
  }

  lemma WindowEnds(bx: seq<Word>)
    requires |bx| == 64
    ensures Window(bx, 48) == bx[48..] && Window(bx, 0) == bx[..16]
  {
  }
}
