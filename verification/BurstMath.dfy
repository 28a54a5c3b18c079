module BurstMath {
  /* Deadlines (src/burstmath.c): the plot of an account and nonce, hashed backwards in place, and
     the scoop that a block picks from it. */

  import InitialState
  import opened Options
  import opened Shabal
  import opened ShabalHash
  import opened ShabalContext
  import opened ShabalUnrolled

  const SCOOP_SIZE: nat := 64
  const NUM_SCOOPS: nat := 4096
  const NONCE_SIZE: nat := 262144
  const HASH_SIZE: nat := 32
  const HASH_CAP: nat := 4096
  const TOTAL: nat := 262160         // NONCE_SIZE and the 16 seed bytes

  // ----- What is computed for one request -----

  function WordBytes(w: Word): (b: seq<Byte>)
    ensures |b| == 4
  {
    [(w & 0xFF) as Byte, ((w >> 8) & 0xFF) as Byte, ((w >> 16) & 0xFF) as Byte, ((w >> 24) & 0xFF) as Byte]
  }

  function Bytes(words: seq<Word>): (b: seq<Byte>)
    ensures |b| == 4 * |words|
  {
    seq(4 * |words|, i requires 0 <= i < 4 * |words| => WordBytes(words[i / 4])[i % 4])
  }

  /** One more digit to base 256, the least significant. */
  function Push(high: bv64, b: Byte): bv64 { (high << 8) | (b as bv64) }

  /** The number whose digits the bytes are, the first the least significant. */
  function LittleEndian(b: seq<Byte>): bv64 {
    if b == [] then 0 else Push(LittleEndian(b[1..]), b[0])
  }

  /** The same with the first the most significant. */
  function FromBigEndian(b: seq<Byte>): bv64 {
    if b == [] then 0 else Push(FromBigEndian(b[..|b| - 1]), b[|b| - 1])
  }

  /** The 256-bit hash, as words and as the bytes they are stored as. */
  function HashWords(data: seq<Byte>): (h: seq<Word>)
    ensures |h| == 8
  {
    Digest(InitCore(256), data, 0, 0, 8)
  }

  function Hash(data: seq<Byte>): (h: seq<Byte>)
    ensures |h| == HASH_SIZE
  {
    Bytes(HashWords(data))
  }

  /** A 64-bit number, most significant byte first. */
  function BigEndian(v: bv64): (b: seq<Byte>)
    ensures |b| == 8
  {
    [((v >> 56) & 0xFF) as Byte, ((v >> 48) & 0xFF) as Byte, ((v >> 40) & 0xFF) as Byte, ((v >> 32) & 0xFF) as Byte,
     ((v >> 24) & 0xFF) as Byte, ((v >> 16) & 0xFF) as Byte, ((v >> 8) & 0xFF) as Byte, (v & 0xFF) as Byte]
  }

  function Seed(addr: bv64, nonce: bv64): (s: seq<Byte>)
    ensures |s| == 16
  {
    BigEndian(addr) + BigEndian(nonce)
  }

  /** The end of the chain after n hashes: each is put before what it is the hash of, and only the
      first HASH_CAP bytes of that are hashed. */
  function Chain(seed: seq<Byte>, n: nat): (c: seq<Byte>)
    requires |seed| == 16
    ensures |c| == 16 + HASH_SIZE * n
  {
    if n == 0 then seed
    else
      var rest := Chain(seed, n - 1);
      Hash(if |rest| > HASH_CAP then rest[..HASH_CAP] else rest) + rest
  }

  const HASHES: nat := 8192          // NONCE_SIZE / HASH_SIZE

  function XorByte(x: Byte, y: Byte): Byte { x ^ y }

  /** The plot is the chain with the hash of all of it laid over. */
  function Overlay(raw: seq<Byte>, final: seq<Byte>): (p: seq<Byte>)
    requires |raw| == TOTAL && |final| == HASH_SIZE
    ensures |p| == NONCE_SIZE
  {
    seq(NONCE_SIZE, i requires 0 <= i < NONCE_SIZE => XorByte(raw[i], final[i % 32]))
  }

  function PlotOf(raw: seq<Byte>): (p: seq<Byte>)
    requires |raw| == TOTAL
    ensures |p| == NONCE_SIZE
  {
    Overlay(raw, Hash(raw))
  }

  /** The chain when it has reached the front of the buffer. */
  function Raw(seed: seq<Byte>, hashes: nat): (r: seq<Byte>)
    requires |seed| == 16 && hashes == HASHES
    ensures |r| == TOTAL
  {
    Chain(seed, hashes)
  }

  function Plot(seed: seq<Byte>): (p: seq<Byte>)
    requires |seed| == 16
    ensures |p| == NONCE_SIZE
  {
    PlotOf(Raw(seed, HASHES))
  }

  function Scoop(plot: seq<Byte>, nr: nat): (s: seq<Byte>)
    requires |plot| == NONCE_SIZE && nr < NUM_SCOOPS
    ensures |s| == SCOOP_SIZE
  {
    plot[nr * SCOOP_SIZE..nr * SCOOP_SIZE + SCOOP_SIZE]
  }

  /** PoC2: the second halves of scoops s and 4095 - s change places. */
  function Swapped(plot: seq<Byte>): (p: seq<Byte>)
    requires |plot| == NONCE_SIZE
    ensures |p| == NONCE_SIZE
  {
    seq(NONCE_SIZE, i requires 0 <= i < NONCE_SIZE => plot[SwapIndex(i)])
  }

  function SwapIndex(i: nat): (k: nat)
    requires i < NONCE_SIZE
    ensures k < NONCE_SIZE
  {
    if i % SCOOP_SIZE < 32 then i else (NUM_SCOOPS - 1 - i / SCOOP_SIZE) * SCOOP_SIZE + i % SCOOP_SIZE
  }

  /** A 64-bit load from the front of the stored hash. */
  function Target(h: seq<Word>): bv64
    requires |h| == 8
  {
    (h[0] as bv64) | ((h[1] as bv64) << 32)
  }

  lemma FourDigits(b: seq<Byte>, rest: seq<Byte>)
    requires |b| == 4
    ensures LittleEndian(b + rest) == Push(Push(Push(Push(LittleEndian(rest), b[3]), b[2]), b[1]), b[0])
  {
    hide Push;
    FirstDigit(b, rest);
    FirstDigit(b[1..], rest);
    FirstDigit(b[2..], rest);
    FirstDigit(b[3..], rest);
    hide *;
    assert b[1..][1..] == b[2..] && b[2..][1..] == b[3..] && b[3..][1..] + rest == rest;
  }

  lemma FirstDigit(b: seq<Byte>, rest: seq<Byte>)
    requires b != []
    ensures LittleEndian(b + rest) == Push(LittleEndian(b[1..] + rest), b[0])
  {
    hide Push;
    assert (b + rest)[1..] == b[1..] + rest;
  }

  lemma WordDigits(w: Word, high: bv64)
    ensures var b := WordBytes(w); Push(Push(Push(Push(high, b[3]), b[2]), b[1]), b[0]) == (w as bv64) | (high << 32)
  {
  }

  /** The load reads the first eight bytes the hash is stored as. */
  lemma TargetIs(h: seq<Word>)
    requires |h| == 8
    ensures Target(h) == LittleEndian(Bytes(h)[..8])
  {
    var b0, b1 := WordBytes(h[0]), WordBytes(h[1]);
    assert LittleEndian([]) == 0;
    WordDigits(h[0], Target(h) >> 32);
    WordDigits(h[1], 0);
    LoadHigh(h[0], h[1]);
    hide WordBytes, Push, LittleEndian;
    FourDigits(b0, b1);
    FourDigits(b1, []);
    assert b1 + [] == b1 && Bytes(h)[..8] == b0 + b1;
  }

  lemma LoadHigh(low: Word, high: Word)
    ensures var t := (low as bv64) | ((high as bv64) << 32);
            t >> 32 == (high as bv64) | (0 << 32) && t == (low as bv64) | ((t >> 32) << 32)
  {
  }

  datatype Request = Request(baseTarget: nat, scoop: nat, gensig: seq<Byte>, addr: bv64, nonce: bv64)

  /** What a lane needs for the others to be computed: its scoop number may be any. */
  predicate IsLane(r: Request) { r.baseTarget > 0 && |r.gensig| == HASH_SIZE }

  predicate IsRequest(r: Request) { IsLane(r) && r.scoop < NUM_SCOOPS }

  /** The deadline of a request. */
  function Deadline(r: Request, poc2: bool): nat
    requires IsRequest(r)
  {
    DeadlineOf(r, Plot(Seed(r.addr, r.nonce)), poc2)
  }

  function ScoopFor(plot: seq<Byte>, nr: nat, poc2: bool): (s: seq<Byte>)
    requires |plot| == NONCE_SIZE && nr < NUM_SCOOPS
    ensures |s| == SCOOP_SIZE
  {
    Scoop(if poc2 then Swapped(plot) else plot, nr)
  }

  function Number(v: bv64): nat { v as nat }

  function Quotient(target: nat, baseTarget: nat): nat
    requires baseTarget > 0
  {
    target / baseTarget
  }

  function DeadlineOf(r: Request, plot: seq<Byte>, poc2: bool): nat
    requires IsRequest(r) && |plot| == NONCE_SIZE
  {
    Quotient(Number(Target(HashWords(r.gensig + ScoopFor(plot, r.scoop, poc2)))), r.baseTarget)
  }

  /** What a deadline is: how often the base target goes into the first eight bytes of the hash of
      generation signature and scoop. */
  predicate IsDeadline(r: Request, scoop: seq<Byte>, d: nat) {
    IsQuotient(LittleEndian(Hash(r.gensig + scoop)[..8]) as nat, r.baseTarget, d)
  }

  predicate IsQuotient(target: nat, baseTarget: nat, q: nat) { q * baseTarget <= target < (q + 1) * baseTarget }

  lemma QuotientIs(target: nat, baseTarget: nat)
    requires baseTarget > 0
    ensures IsQuotient(target, baseTarget, Quotient(target, baseTarget))
  {
  }

  /** For PoC1 the scoop is that of the plot, for PoC2 that of the swapped plot. */
  lemma DeadlineIs(r: Request, plot: seq<Byte>, poc2: bool)
    requires IsRequest(r) && |plot| == NONCE_SIZE
    ensures IsDeadline(r, Scoop(if poc2 then Swapped(plot) else plot, r.scoop), DeadlineOf(r, plot, poc2))
  {
    var h := HashWords(r.gensig + ScoopFor(plot, r.scoop, poc2));
    TargetIs(h);
    QuotientIs(Number(Target(h)), r.baseTarget);
    hide HashWords, Target, LittleEndian, Quotient, IsQuotient, Bytes, Swapped, Scoop;
  }

  function PlotFor(r: Request): (p: seq<Byte>)
    ensures |p| == NONCE_SIZE
  {
    Plot(Seed(r.addr, r.nonce))
  }

  /** A deadline by PoC1 is that of the plot's scoop, by PoC2 that of the swapped plot's. */
  predicate PoC1Deadline(r: Request, d: nat)
    requires r.scoop < NUM_SCOOPS
  {
    IsDeadline(r, Scoop(PlotFor(r), r.scoop), d)
  }

  predicate PoC2Deadline(r: Request, d: nat)
    requires r.scoop < NUM_SCOOPS
  {
    IsDeadline(r, Scoop(Swapped(PlotFor(r)), r.scoop), d)
  }

  lemma DeadlinesAre(reqs: seq<Request>, deadlines: seq<nat>, poc2: bool)
    requires |deadlines| == |reqs|
    requires forall k | 0 <= k < |reqs| && IsRequest(reqs[k]) :: deadlines[k] == Deadline(reqs[k], poc2)
    ensures forall k | 0 <= k < |reqs| && IsRequest(reqs[k]) ::
              if poc2 then PoC2Deadline(reqs[k], deadlines[k]) else PoC1Deadline(reqs[k], deadlines[k])
  {
    hide DeadlineOf, IsDeadline, Scoop, Swapped, Plot, Seed;
    forall k | 0 <= k < |reqs| && IsRequest(reqs[k])
      ensures if poc2 then PoC2Deadline(reqs[k], deadlines[k]) else PoC1Deadline(reqs[k], deadlines[k])
    {
      DeadlineIs(reqs[k], PlotFor(reqs[k]), poc2);
    }
  }

  lemma BigEndianIs(v: bv64)
    ensures FromBigEndian(BigEndian(v)) == v
  {
    var b := BigEndian(v);
    EightDigits(b);
    hide FromBigEndian;
  }

  lemma EightDigits(b: seq<Byte>)
    requires |b| == 8
    ensures FromBigEndian(b)
         == Push(Push(Push(Push(Push(Push(Push(Push(0, b[0]), b[1]), b[2]), b[3]), b[4]), b[5]), b[6]), b[7])
  {
    hide Push, FromBigEndian;
    FourMore(b, 0);
    FourMore(b, 4);
    NoDigits(b);
    hide *;
    assert b[..8] == b;
  }

  lemma NoDigits(b: seq<Byte>)
    ensures FromBigEndian(b[..0]) == 0
  {
  }

  lemma FourMore(b: seq<Byte>, n: nat)
    requires n + 4 <= |b|
    ensures FromBigEndian(b[..n + 4]) == Push(Push(Push(Push(FromBigEndian(b[..n]), b[n]), b[n + 1]), b[n + 2]), b[n + 3])
  {
    LastDigit(b, n + 1);
    LastDigit(b, n + 2);
    LastDigit(b, n + 3);
    LastDigit(b, n + 4);
    hide *;
  }

  lemma LastDigit(b: seq<Byte>, n: nat)
    requires 0 < n <= |b|
    ensures FromBigEndian(b[..n]) == Push(FromBigEndian(b[..n - 1]), b[n - 1])
  {
    hide Push;
    assert b[..n][..n - 1] == b[..n - 1];
  }

  // ----- The swap -----

  lemma SwapIndexTwice(i: nat)
    requires i < NONCE_SIZE
    ensures SwapIndex(SwapIndex(i)) == i
  {
  }

  /** Swapping twice is doing nothing: PoC1 and PoC2 plots carry the same data. */
  lemma SwappedTwice(plot: seq<Byte>)
    requires |plot| == NONCE_SIZE
    ensures Swapped(Swapped(plot)) == plot
  {
    forall i | 0 <= i < NONCE_SIZE ensures Swapped(Swapped(plot))[i] == plot[i] { SwapIndexTwice(i); }
  }

  /** What the code reads for PoC2: the first half of scoop nr and the second half of scoop 4095 - nr. */
  lemma SwappedScoop(plot: seq<Byte>, nr: nat)
    requires |plot| == NONCE_SIZE && nr < NUM_SCOOPS
    ensures (NUM_SCOOPS - 1 - nr) * SCOOP_SIZE + 64 <= NONCE_SIZE
    ensures Scoop(Swapped(plot), nr) == plot[nr * SCOOP_SIZE..nr * SCOOP_SIZE + 32]
              + plot[(NUM_SCOOPS - 1 - nr) * SCOOP_SIZE + 32..(NUM_SCOOPS - 1 - nr) * SCOOP_SIZE + 64]
  {
    var scoop := Scoop(Swapped(plot), nr);
    forall k | 0 <= k < SCOOP_SIZE
      ensures scoop[k] == plot[if k < 32 then nr * SCOOP_SIZE + k else (NUM_SCOOPS - 1 - nr) * SCOOP_SIZE + k]
    {
      assert (nr * SCOOP_SIZE + k) % SCOOP_SIZE == k && (nr * SCOOP_SIZE + k) / SCOOP_SIZE == nr;
    }
  }

  /** A plot that is zero but for one byte. */
  function Marked(at: nat): (plot: seq<Byte>)
    requires at < NONCE_SIZE
    ensures |plot| == NONCE_SIZE
  {
    seq(NONCE_SIZE, i requires 0 <= i < NONCE_SIZE => if i == at then 1 else 0)
  }

  /** On a given plot PoC1 and PoC2 read the same bytes for a scoop exactly when the second halves
      of the scoop and of its mirror image coincide. */
  lemma VersionsAgree(plot: seq<Byte>, nr: nat)
    requires |plot| == NONCE_SIZE && nr < NUM_SCOOPS
    ensures ScoopFor(plot, nr, true) == ScoopFor(plot, nr, false) <==>
              plot[nr * SCOOP_SIZE + 32..nr * SCOOP_SIZE + 64]
                == plot[(NUM_SCOOPS - 1 - nr) * SCOOP_SIZE + 32..(NUM_SCOOPS - 1 - nr) * SCOOP_SIZE + 64]
  {
    SwappedScoop(plot, nr);
    var first, a := plot[nr * SCOOP_SIZE..nr * SCOOP_SIZE + 32], plot[nr * SCOOP_SIZE + 32..nr * SCOOP_SIZE + 64];
    var b := plot[(NUM_SCOOPS - 1 - nr) * SCOOP_SIZE + 32..(NUM_SCOOPS - 1 - nr) * SCOOP_SIZE + 64];
    assert Scoop(plot, nr) == first + a;
    assert a == (first + a)[32..] && b == (first + b)[32..];
  }

  /** For every scoop there is a plot on which they do not. */
  lemma VersionsDiffer(nr: nat)
    requires nr < NUM_SCOOPS
    ensures ScoopFor(Marked(nr * SCOOP_SIZE + 32), nr, true) != ScoopFor(Marked(nr * SCOOP_SIZE + 32), nr, false)
  {
    var plot, mirror := Marked(nr * SCOOP_SIZE + 32), (NUM_SCOOPS - 1 - nr) * SCOOP_SIZE;
    VersionsAgree(plot, nr);
    hide ScoopFor;
    assert mirror != nr * SCOOP_SIZE;
    assert plot[nr * SCOOP_SIZE + 32..nr * SCOOP_SIZE + 64][0] == 1;
    assert plot[mirror + 32..mirror + 64][0] == 0;
  }

  // ----- calculate_scoop -----

  method CalculateScoop(height: bv64, gensig: seq<Byte>) returns (scoop: nat)
    requires |gensig| == HASH_SIZE
    ensures scoop < NUM_SCOOPS
    ensures var h := Hash(gensig + BigEndian(height)); scoop == ((h[30] & 0x0F) as nat) * 256 + h[31] as nat
  {
    InitialState.TableIsInitialState();
    hide InitCore, Digest;
    var sc := new AsmContext(256, InitialState.TABLE);
    sc.Update(gensig);
    sc.Update(BigEndian(height));
    assert sc.msg == gensig + BigEndian(height);
    var words := sc.Close(0, 0);
    var newGensig := Bytes(words);
    scoop := ((newGensig[30] & 0x0F) as nat) * 256 + newGensig[31] as nat;
    NibbleBound(newGensig[30]);
  }

  lemma NibbleBound(b: Byte)
    ensures (b & 0x0F) as nat < 16
  {
    assert b & 0x0F <= 15;
  }

  // ----- calculate_deadlines -----

  /** Initialise, update with two chunks of each lane's data, close. */
  method HashLanes(first: seq<seq<Byte>>, len1: nat, second: seq<seq<Byte>>, len2: nat) returns (h: seq<seq<Word>>)
    requires 0 < |first| == |second|
    requires forall k | 0 <= k < |first| :: |first[k]| == len1 && |second[k]| == len2
    ensures |h| == |first| && forall k | 0 <= k < |first| :: h[k] == HashWords(first[k] + second[k])
  {
    hide Digest, InitCore, Absorbed, Whole;
    var lanes := |first|;
    var x := new LaneContext(lanes, 256);
    x.Update(first, len1);
    x.Update(second, len2);
    assert forall k | 0 <= k < lanes :: x.msg[k] == first[k] + second[k];
    var out := x.Close(seq(lanes, _ => 0), 0, seq(lanes, _ => true));
    h := seq(lanes, k requires 0 <= k < lanes && |out| == lanes && out[k].Some? => out[k].value);
  }

  function Row(gen: array2<Byte>, k: nat, lo: nat, hi: nat): (r: seq<Byte>)
    requires k < gen.Length0 && lo <= hi <= gen.Length1
    reads gen
    ensures |r| == hi - lo && forall i | 0 <= i < hi - lo :: r[i] == gen[k, lo + i]
  {
    seq(hi - lo, i requires 0 <= i < hi - lo && k < gen.Length0 && hi <= gen.Length1 reads gen => gen[k, lo + i])
  }

  function Rows(gen: array2<Byte>, lo: nat, hi: nat): (r: seq<seq<Byte>>)
    requires lo <= hi <= gen.Length1
    reads gen
    ensures |r| == gen.Length0 && forall k | 0 <= k < gen.Length0 :: r[k] == Row(gen, k, lo, hi)
  {
    seq(gen.Length0, k requires 0 <= k < gen.Length0 && lo <= hi <= gen.Length1 reads gen => Row(gen, k, lo, hi))
  }

  /** Stores bytes into every lane's buffer. */
  method Store(gen: array2<Byte>, at: nat, data: seq<seq<Byte>>, len: nat)
    requires |data| == gen.Length0 && (forall k | 0 <= k < |data| :: |data[k]| == len) && at + len <= gen.Length1
    modifies gen
    ensures forall k, i | 0 <= k < gen.Length0 && 0 <= i < gen.Length1 ::
              gen[k, i] == if at <= i < at + len then data[k][i - at] else old(gen[k, i])
  {
    var k := 0;
    while k < gen.Length0
      invariant 0 <= k <= gen.Length0
      invariant forall l, i | 0 <= l < gen.Length0 && 0 <= i < gen.Length1 ::
                  gen[l, i] == if l < k && at <= i < at + len then data[l][i - at] else old(gen[l, i])
    {
      var j := 0;
      while j < len
        invariant 0 <= j <= len
        invariant forall l, i | 0 <= l < gen.Length0 && 0 <= i < gen.Length1 ::
                    gen[l, i] == if (l < k && at <= i < at + len) || (l == k
                      && at <= i < at + j) then data[l][i - at] else old(gen[l, i])
      {
        gen[k, at + j] := data[k][j];
        j := j + 1;
      }
      k := k + 1;
    }
  }

  /** SET_NONCE for account and nonce. */
  method SetSeeds(gen: array2<Byte>, reqs: seq<Request>)
    requires |reqs| == gen.Length0 && gen.Length1 == TOTAL
    modifies gen
    ensures forall k | 0 <= k < gen.Length0 :: Row(gen, k, NONCE_SIZE, TOTAL) == Seed(reqs[k].addr, reqs[k].nonce)
  {
    hide BigEndian;
    Store(gen, NONCE_SIZE, seq(|reqs|, k requires 0 <= k < |reqs| => BigEndian(reqs[k].addr)), 8);
    Store(gen, NONCE_SIZE + 8, seq(|reqs|, k requires 0 <= k < |reqs| => BigEndian(reqs[k].nonce)), 8);
  }

  /** The part of the buffer from i on is the chain so far, whatever was there before. */
  ghost predicate ChainedFrom(gen: array2<Byte>, reqs: seq<Request>, i: int)
    requires |reqs| == gen.Length0 && gen.Length1 == TOTAL
    reads gen
  {
    && 0 <= i <= NONCE_SIZE && i % HASH_SIZE == 0
    && forall k | 0 <= k < gen.Length0 ::
       Row(gen, k, i, TOTAL) == Chain(Seed(reqs[k].addr, reqs[k].nonce), (NONCE_SIZE - i) / HASH_SIZE)
  }

  /** Each lane's bytes i .. i + len are hashed, and the hash is stored just before them. */
  method HashBefore(gen: array2<Byte>, i: nat, len: nat)
    requires 0 < gen.Length0 && gen.Length1 == TOTAL && HASH_SIZE <= i <= i + len <= TOTAL
    modifies gen
    ensures forall k | 0 <= k < gen.Length0 ::
              Row(gen, k, i - HASH_SIZE, TOTAL) == Hash(old(Row(gen, k, i, i + len))) + old(Row(gen, k, i, TOTAL))
  {
    hide HashWords, Bytes;
    var data := Rows(gen, i, i + len);
    ghost var before := Rows(gen, i, TOTAL);
    var h := HashLanes(data, len, seq(gen.Length0, _ => []), 0);
    var hashes := seq(gen.Length0, k requires 0 <= k < gen.Length0 && |h| == gen.Length0 && |h[k]| == 8 => Bytes(h[k]));
    Store(gen, i - HASH_SIZE, hashes, HASH_SIZE);
    forall k | 0 <= k < gen.Length0 ensures Row(gen, k, i - HASH_SIZE, TOTAL) == Hash(data[k]) + before[k] {
      assert data[k] + [] == data[k];
    }
  }

  lemma ChainNext(seed: seq<Byte>, n: nat, rest: seq<Byte>, len: nat)
    requires |seed| == 16 && rest == Chain(seed, n) && len == if |rest| > HASH_CAP then HASH_CAP else |rest|
    ensures Hash(rest[..len]) + rest == Chain(seed, n + 1)
  {
    hide Hash;
    assert rest[..|rest|] == rest;
  }

  /** One hash of the chain: of at most HASH_CAP bytes. */
  method ChainStep(gen: array2<Byte>, reqs: seq<Request>, i: nat)
    requires 0 < |reqs| == gen.Length0 && gen.Length1 == TOTAL && HASH_SIZE <= i && ChainedFrom(gen, reqs, i)
    modifies gen
    ensures ChainedFrom(gen, reqs, i - HASH_SIZE)
  {
    hide Hash, Seed, Chain;
    var len := NONCE_SIZE + 16 - i;
    if len > HASH_CAP { len := HASH_CAP; }
    ghost var before := Rows(gen, i, TOTAL);
    assert forall k | 0 <= k < gen.Length0 :: Row(gen, k, i, i + len) == before[k][..len];
    HashBefore(gen, i, len);
    ghost var n := (NONCE_SIZE - i) / HASH_SIZE;
    assert (NONCE_SIZE - (i - HASH_SIZE)) / HASH_SIZE == n + 1;
    forall k | 0 <= k < gen.Length0
      ensures Row(gen, k, i - HASH_SIZE, TOTAL) == Chain(Seed(reqs[k].addr, reqs[k].nonce), n + 1)
    {
      ChainNext(Seed(reqs[k].addr, reqs[k].nonce), n, before[k], len);
    }
  }

  /** for (i = NONCE_SIZE; i > 0; i -= HASH_SIZE). */
  method ChainSse4(gen: array2<Byte>, reqs: seq<Request>)
    requires 0 < |reqs| == gen.Length0 && gen.Length1 == TOTAL && ChainedFrom(gen, reqs, NONCE_SIZE)
    modifies gen
    ensures ChainedFrom(gen, reqs, 0)
  {
    hide Chain;
    var i: int := NONCE_SIZE;
    while i > 0
      invariant ChainedFrom(gen, reqs, i)
    {
      ChainStep(gen, reqs, i);
      i := i - HASH_SIZE;
    }
  }

  /** for (i = NONCE_SIZE; i;): it stops only at exactly zero, and does. */
  method ChainAvx2(gen: array2<Byte>, reqs: seq<Request>)
    requires 0 < |reqs| == gen.Length0 && gen.Length1 == TOTAL && ChainedFrom(gen, reqs, NONCE_SIZE)
    modifies gen
    ensures ChainedFrom(gen, reqs, 0)
  {
    hide Chain;
    var i: int := NONCE_SIZE;
    while i != 0
      invariant ChainedFrom(gen, reqs, i)
      decreases i
    {
      ChainStep(gen, reqs, i);
      i := i - HASH_SIZE;
    }
  }

  /** for (i = 0; i < NONCE_SIZE; i++): every lane's byte i is changed in the same round. */
  method XorRows(gen: array2<Byte>, final: seq<seq<Byte>>)
    requires gen.Length1 == TOTAL && |final| == gen.Length0 && forall k | 0 <= k < |final| :: |final[k]| == HASH_SIZE
    modifies gen
    ensures forall k, p | 0 <= k < gen.Length0 && 0 <= p < NONCE_SIZE :: gen[k, p] == XorByte(old(gen[k, p]), final[k][p % 32])
  {
    hide XorByte;
    var i := 0;
    while i < NONCE_SIZE
      invariant 0 <= i <= NONCE_SIZE
      invariant forall k, p | 0 <= k < gen.Length0 && 0 <= p < TOTAL ::
                  gen[k, p] == if p < i then XorByte(old(gen[k, p]), final[k][p % 32]) else old(gen[k, p])
    {
      var k := 0;
      while k < gen.Length0
        invariant 0 <= k <= gen.Length0
        invariant forall l, p | 0 <= l < gen.Length0 && 0 <= p < TOTAL ::
                    gen[l, p] == if p < i || (p == i && l < k) then XorByte(old(gen[l, p]), final[l][p % 32]) else old(gen[l, p])
      {
        gen[k, i] := XorByte(gen[k, i], final[k][i % 32]);
        k := k + 1;
      }
      i := i + 1;
    }
  }

  /** The final hash of every lane's buffer is laid over it. */
  method XorFinal(gen: array2<Byte>)
    requires 0 < gen.Length0 && gen.Length1 == TOTAL
    modifies gen
    ensures forall k | 0 <= k < gen.Length0 :: Row(gen, k, 0, NONCE_SIZE) == PlotOf(old(Row(gen, k, 0, TOTAL)))
  {
    hide HashWords, Bytes, XorByte;
    ghost var raw := Rows(gen, 0, TOTAL);
    var words := HashLanes(Rows(gen, 0, TOTAL), TOTAL, seq(gen.Length0, _ => []), 0);
    var final := seq(gen.Length0, k requires 0 <= k < gen.Length0 && |words| == gen.Length0
      && |words[k]| == 8 => Bytes(words[k]));
    forall k | 0 <= k < gen.Length0 ensures final[k] == Hash(raw[k]) { assert raw[k] + [] == raw[k]; }
    XorRows(gen, final);
    forall k | 0 <= k < gen.Length0 ensures Row(gen, k, 0, NONCE_SIZE) == Overlay(raw[k], final[k]) {}
  }

  /** The two halves copied into each lane's scoop buffer. */
  function PickScoop(gen: array2<Byte>, k: nat, nr: nat, poc2: bool): (s: seq<Byte>)
    requires k < gen.Length0 && gen.Length1 == TOTAL && nr < NUM_SCOOPS
    reads gen
    ensures |s| == SCOOP_SIZE
  {
    var first := nr * SCOOP_SIZE;
    var second := if poc2 then (4095 - nr) * SCOOP_SIZE + 32 else nr * SCOOP_SIZE + 32;
    Row(gen, k, first, first + 32) + Row(gen, k, second, second + 32)
  }

  lemma PickedScoop(gen: array2<Byte>, k: nat, nr: nat, poc2: bool, plot: seq<Byte>)
    requires k < gen.Length0 && gen.Length1 == TOTAL && nr < NUM_SCOOPS
    requires plot == Row(gen, k, 0, NONCE_SIZE)
    ensures PickScoop(gen, k, nr, poc2) == ScoopFor(plot, nr, poc2)
  {
    if poc2 { SwappedScoop(plot, nr); }
  }

  /** Each lane's scoop buffer.  For a scoop number outside the plot the code copies whatever lies
      beyond the buffer. */
  method PickScoops(gen: array2<Byte>, reqs: seq<Request>, poc2: bool) returns (scoops: seq<seq<Byte>>)
    requires |reqs| == gen.Length0 && gen.Length1 == TOTAL
    ensures |scoops| == |reqs| && forall k | 0 <= k < |reqs| :: |scoops[k]| == SCOOP_SIZE
    ensures forall k | 0 <= k < |reqs| && reqs[k].scoop < NUM_SCOOPS ::
            scoops[k] == ScoopFor(Row(gen, k, 0, NONCE_SIZE), reqs[k].scoop, poc2)
  {
    hide PickScoop, ScoopFor, Row;
    scoops := [];
    var k := 0;
    while k < |reqs|
      invariant 0 <= k <= |reqs| && |scoops| == k && forall i | 0 <= i < k :: |scoops[i]| == SCOOP_SIZE
      invariant forall i | 0 <= i < k && reqs[i].scoop < NUM_SCOOPS ::
                scoops[i] == ScoopFor(Row(gen, i, 0, NONCE_SIZE), reqs[i].scoop, poc2)
    {
      if reqs[k].scoop < NUM_SCOOPS {
        PickedScoop(gen, k, reqs[k].scoop, poc2, Row(gen, k, 0, NONCE_SIZE));
        scoops := scoops + [PickScoop(gen, k, reqs[k].scoop, poc2)];
      } else {
        var beyond: seq<Byte> := *;
        scoops := scoops + [if |beyond| == SCOOP_SIZE then beyond else seq(SCOOP_SIZE, _ => 0)];
      }
      k := k + 1;
    }
  }

  /** The last part of both functions: generation signature and scoop are hashed, and the result is
      divided by the base target. */
  method Finish(gen: array2<Byte>, reqs: seq<Request>, poc2: bool) returns (deadlines: seq<nat>)
    requires 0 < |reqs| == gen.Length0 && gen.Length1 == TOTAL && forall k | 0 <= k < |reqs| :: IsLane(reqs[k])
    ensures |deadlines| == |reqs|
    ensures forall k | 0 <= k < |reqs|
            && IsRequest(reqs[k]) :: deadlines[k] == DeadlineOf(reqs[k], Row(gen, k, 0, NONCE_SIZE), poc2)
  {
    hide HashWords, PickScoop, ScoopFor, Target;
    var gensigs := seq(|reqs|, k requires 0 <= k < |reqs| => reqs[k].gensig);
    var scoops := PickScoops(gen, reqs, poc2);
    var h := HashLanes(gensigs, HASH_SIZE, scoops, SCOOP_SIZE);
    deadlines := [];
    var k := 0;
    while k < |reqs|
      invariant 0 <= k <= |reqs| && |deadlines| == k
      invariant forall i | 0 <= i < k
                && IsRequest(reqs[i]) :: deadlines[i] == DeadlineOf(reqs[i], Row(gen, i, 0, NONCE_SIZE), poc2)
    {
      deadlines := deadlines + [Quotient(Number(Target(h[k])), reqs[k].baseTarget)];
      k := k + 1;
    }
  }

  /** Every request gets the deadline it has on its own, whatever the other lanes are, and whatever
      the buffers held before. */
  method CalculateDeadlinesSse4(poc2: bool, reqs: seq<Request>) returns (deadlines: seq<nat>)
    requires |reqs| == 4 && forall k | 0 <= k < |reqs| :: IsLane(reqs[k])
    ensures |deadlines| == |reqs|
    ensures forall k | 0 <= k < |reqs| && IsRequest(reqs[k]) ::
            deadlines[k] == Deadline(reqs[k], poc2)
              && if poc2 then PoC2Deadline(reqs[k], deadlines[k]) else PoC1Deadline(reqs[k], deadlines[k])
  {
    hide DeadlineOf, Hash, Chain, Row, IsLane, Seed, PoC1Deadline, PoC2Deadline;
    var gen := new Byte[|reqs|, TOTAL];
    SetSeeds(gen, reqs);
    StartOfChain(gen, reqs);
    ChainSse4(gen, reqs);
    EndOfChain(gen, reqs);
    XorFinal(gen);
    deadlines := Finish(gen, reqs, poc2);
    DeadlinesAre(reqs, deadlines, poc2);
  }

  method CalculateDeadlinesAvx2(poc2: bool, reqs: seq<Request>) returns (deadlines: seq<nat>)
    requires |reqs| == 8 && forall k | 0 <= k < |reqs| :: IsLane(reqs[k])
    ensures |deadlines| == |reqs|
    ensures forall k | 0 <= k < |reqs| && IsRequest(reqs[k]) ::
            deadlines[k] == Deadline(reqs[k], poc2)
              && if poc2 then PoC2Deadline(reqs[k], deadlines[k]) else PoC1Deadline(reqs[k], deadlines[k])
  {
    hide DeadlineOf, Hash, Chain, Row, IsLane, Seed, PoC1Deadline, PoC2Deadline;
    var gen := new Byte[|reqs|, TOTAL];
    SetSeeds(gen, reqs);
    StartOfChain(gen, reqs);
    ChainAvx2(gen, reqs);
    EndOfChain(gen, reqs);
    XorFinal(gen);
    deadlines := Finish(gen, reqs, poc2);
    DeadlinesAre(reqs, deadlines, poc2);
  }

  lemma StartOfChain(gen: array2<Byte>, reqs: seq<Request>)
    requires |reqs| == gen.Length0 && gen.Length1 == TOTAL
    requires forall k | 0 <= k < gen.Length0 :: Row(gen, k, NONCE_SIZE, TOTAL) == Seed(reqs[k].addr, reqs[k].nonce)
    ensures ChainedFrom(gen, reqs, NONCE_SIZE)
  {
  }

  lemma EndOfChain(gen: array2<Byte>, reqs: seq<Request>)
    requires |reqs| == gen.Length0 && gen.Length1 == TOTAL && ChainedFrom(gen, reqs, 0)
    ensures forall k | 0 <= k < gen.Length0 :: Row(gen, k, 0, TOTAL) == Raw(Seed(reqs[k].addr, reqs[k].nonce), HASHES)
  {
  }
}
