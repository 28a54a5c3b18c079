module ShabalHash {
  /* Hashing a message with Shabal: what the streaming implementations (src/mshabal_sse4.c,
     src/mshabal256_avx2.c, src/shabal64.s) compute on one input. */

  import opened Shabal

  type Byte = bv8

  const BLOCK: nat := 64

  /** A little-endian load. */
  function WordOf(b0: Byte, b1: Byte, b2: Byte, b3: Byte): Word {
    (b0 as Word) | ((b1 as Word) << 8) | ((b2 as Word) << 16) | ((b3 as Word) << 24)
  }

  function BlockWords(block: seq<Byte>): (m: seq<Word>)
    requires |block| == BLOCK
    ensures |m| == 16
  {
    seq(16, i requires 0 <= i < 16 => WordOf(block[4 * i], block[4 * i + 1], block[4 * i + 2], block[4 * i + 3]))
  }

  /** Compressing whole blocks, counting them. */
  function Absorb(s: Core, w: Counter, data: seq<Byte>): (r: (Core, Counter))
    requires IsCore(s) && |data| % BLOCK == 0
    ensures IsCore(r.0)
    decreases |data|
  {
    if data == [] then (s, w)
    else Absorb(Compress(s, BlockWords(data[..BLOCK]), w), Next(w), data[BLOCK..])
  }

  /** Absorbing a then b is absorbing a + b. */
  lemma {:induction false} AbsorbConcat(s: Core, w: Counter, a: seq<Byte>, b: seq<Byte>)
    requires IsCore(s) && |a| % BLOCK == 0 && |b| % BLOCK == 0
    ensures Absorb(s, w, a + b) == Absorb(Absorb(s, w, a).0, Absorb(s, w, a).1, b)
    decreases |a|
  {
    hide Compress, BlockWords, Next;
    if a == [] {
      assert a + b == b;
    } else {
      assert (a + b)[..BLOCK] == a[..BLOCK] && (a + b)[BLOCK..] == a[BLOCK..] + b;
      AbsorbConcat(Compress(s, BlockWords(a[..BLOCK]), w), Next(w), a[BLOCK..], b);
    }
  }

  lemma AbsorbOne(s: Core, w: Counter, block: seq<Byte>)
    requires IsCore(s) && |block| == BLOCK
    ensures Absorb(s, w, block) == (Compress(s, BlockWords(block), w), Next(w))
  {
    hide Compress, BlockWords, Next;
    assert block[..BLOCK] == block && block[BLOCK..] == [];
  }

  /** W after n blocks: it starts at 1. */
  function CounterAfter(n: nat): Counter { if n == 0 then Counter(0, 1) else Next(CounterAfter(n - 1)) }

  lemma {:induction false} AbsorbCounts(s: Core, n: nat, data: seq<Byte>)
    requires IsCore(s) && |data| % BLOCK == 0
    ensures Absorb(s, CounterAfter(n), data).1 == CounterAfter(n + |data| / BLOCK)
    decreases |data|
  {
    hide Compress, BlockWords, Next;
    if data != [] {
      AbsorbCounts(Compress(s, BlockWords(data[..BLOCK]), CounterAfter(n)), n + 1, data[BLOCK..]);
    }
  }

  // ----- Initial state -----

  /** The block of the words x, x + 1, .., x + 15. */
  function InitBlock(x: nat): (block: seq<Byte>)
    ensures |block| == BLOCK
  {
    seq(BLOCK, i requires 0 <= i < BLOCK => InitByte(x, i))
  }

  function LowByte(n: nat): Byte { (n % 256) as Byte }

  function InitByte(x: nat, i: nat): Byte {
    if i % 4 == 0 then LowByte(x + i / 4) else if i % 4 == 1 then LowByte((x + i / 4) / 256) else 0
  }

  function Zero(): (s: Core)
    ensures IsCore(s)
  {
    Core(seq(12, _ => 0), seq(16, _ => 0), seq(16, _ => 0))
  }

  /** The state after the two initial blocks, absorbed under W = -1 and W = 0. */
  function InitCore(outSize: nat): (s: Core)
    ensures IsCore(s)
  {
    var s1 := Compress(Zero(), BlockWords(InitBlock(outSize)), Counter(ONES, ONES));
    Compress(s1, BlockWords(InitBlock(outSize + 16)), Counter(0, 0))
  }

  // ----- Finish -----

  /** The byte after the message: the n extra bits of ub, a one bit, zeros. */
  function PadByte(ub: Byte, n: nat): Byte
    requires n < 8
  {
    var z: Byte := 0x80 >> n;
    (ub & (0 - z)) | z
  }

  /** shabal64.s masks after it has set the bit; the byte is the same. */
  function PadByteAsm(ub: Byte, n: nat): Byte
    requires n < 8
  {
    var z: Byte := 0x80 >> n;
    (ub | z) & (0 - z)
  }

  lemma PadBytesAgree(ub: Byte, n: nat)
    requires n < 8
    ensures PadByte(ub, n) == PadByteAsm(ub, n)
  {
    if n == 0 {} else if n == 1 {} else if n == 2 {} else if n == 3 {} else if n == 4 {} else if n == 5 {} else if n == 6 {}
  }

  predicate Bit(x: Byte, i: nat)
    requires i < 8
  {
    (x >> i) & 1 == 1
  }

  /** From the top: the n extra bits, a one, and zeros. */
  lemma PadLayout(ub: Byte, n: nat, i: nat)
    requires n < 8 && i < 8
    ensures Bit(PadByte(ub, n), 7 - i) <==> if i < n then Bit(ub, 7 - i) else i == n
  {
    if i == 0 { PadBit(ub, n, 0); } else if i == 1 { PadBit(ub, n, 1); } else if i == 2 { PadBit(ub, n, 2); }
    else if i == 3 { PadBit(ub, n, 3); } else if i == 4 { PadBit(ub, n, 4); } else if i == 5 { PadBit(ub, n, 5); }
    else if i == 6 { PadBit(ub, n, 6); } else { PadBit(ub, n, 7); }
  }

  lemma PadBit(ub: Byte, n: nat, i: nat)
    requires n < 8 && i < 8
    ensures Bit(PadByte(ub, n), 7 - i) <==> if i < n then Bit(ub, 7 - i) else i == n
  {
    if n == 0 {} else if n == 1 {} else if n == 2 {} else if n == 3 {} else if n == 4 {} else if n == 5 {} else if n == 6 {}
  }

  function Padded(rest: seq<Byte>, pad: Byte): (block: seq<Byte>)
    requires |rest| < BLOCK
    ensures |block| == BLOCK
  {
    rest + [pad] + seq(BLOCK - 1 - |rest|, _ => 0 as Byte)
  }

  lemma PadNotZero(ub: Byte, n: nat)
    requires n < 8
    ensures PadByte(ub, n) != 0
  {
    PadLayout(ub, n, n);
    ZeroBits(7 - n);
    hide Bit, PadByte;
  }

  lemma ZeroBits(i: nat)
    requires i < 8
    ensures !Bit(0, i)
  {
    if i == 0 {} else if i == 1 {} else if i == 2 {} else if i == 3 {} else if i == 4 {} else if i == 5 {} else if i == 6 {}
  }

  /** The padding is unambiguous: a padded block tells the bytes, how many extra bits, and which. */
  lemma PaddingUnambiguous(rest: seq<Byte>, ub: Byte, n: nat, rest': seq<Byte>, ub': Byte, n': nat)
    requires |rest| < BLOCK && n < 8 && |rest'| < BLOCK && n' < 8
    requires Padded(rest, PadByte(ub, n)) == Padded(rest', PadByte(ub', n'))
    ensures rest == rest' && n == n' && forall k | 8 - n <= k < 8 :: Bit(ub, k) == Bit(ub', k)
  {
    hide PadByte, Bit;
    var pad, pad' := PadByte(ub, n), PadByte(ub', n');
    PadNotZero(ub, n);
    PadNotZero(ub', n');
    assert Padded(rest, pad)[|rest|] == pad && Padded(rest', pad')[|rest'|] == pad';
    assert |rest| == |rest'|;
    assert rest == Padded(rest, pad)[..|rest|] == rest';
    PadLayout(ub, n, n);
    PadLayout(ub, n, n');
    PadLayout(ub', n', n);
    PadLayout(ub', n', n');
    assert n == n';
    forall k | 8 - n <= k < 8 ensures Bit(ub, k) == Bit(ub', k) {
      PadLayout(ub, n, 7 - k);
      PadLayout(ub', n', 7 - k);
    }
  }

  /** The padded block is compressed n times under one counter. */
  function Repeat(s: Core, m: seq<Word>, w: Counter, n: nat): (s': Core)
    requires IsCore(s) && |m| == 16
    ensures IsCore(s')
  {
    if n == 0 then s else Compress(Repeat(s, m, w, n - 1), m, w)
  }

  function Whole(msg: seq<Byte>): (n: nat)
    ensures n <= |msg| && n % BLOCK == 0 && |msg| - n < BLOCK
  {
    |msg| / BLOCK * BLOCK
  }

  /** The state before the final block, and the C words that are the hash. */
  function Absorbed(init: Core, msg: seq<Byte>): (s: Core)
    requires IsCore(init)
    ensures IsCore(s)
  {
    Absorb(init, CounterAfter(0), msg[..Whole(msg)]).0
  }

  function Digest(init: Core, msg: seq<Byte>, ub: Byte, n: nat, outWords: nat): (out: seq<Word>)
    requires IsCore(init) && n < 8 && outWords <= 16
    ensures |out| == outWords
  {
    var last := BlockWords(Padded(msg[Whole(msg)..], PadByte(ub, n)));
    Repeat(Absorbed(init, msg), last, CounterAfter(|msg| / BLOCK), 4).c[16 - outWords..]
  }

  // ----- Streaming -----

  /** What an update leaves in the buffer: the bytes after the last full block, then old ones. */
  ghost predicate Keeps(buf: seq<Byte>, rest: seq<Byte>) { |buf| == BLOCK && |rest| < BLOCK && buf[..|rest|] == rest }

  /** What one more chunk does: full blocks are absorbed, the rest is kept. */
  lemma StreamChunk(init: Core, msg: seq<Byte>, blocks: seq<Byte>, rest: seq<Byte>)
    requires IsCore(init) && |blocks| % BLOCK == 0 && |rest| < BLOCK
    requires msg == blocks + rest
    ensures Whole(msg) == |blocks| && msg[..Whole(msg)] == blocks && msg[Whole(msg)..] == rest
    ensures Absorbed(init, msg) == Absorb(init, CounterAfter(0), blocks).0
    ensures |msg| / BLOCK == |blocks| / BLOCK
  {
  }

  lemma AbsorbedIs(init: Core, msg: seq<Byte>)
    requires IsCore(init)
    ensures Absorbed(init, msg) == Absorb(init, CounterAfter(0), msg[..Whole(msg)]).0 && Whole(msg) / BLOCK == |msg| / BLOCK
  {
  }
}
