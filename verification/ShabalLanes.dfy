module ShabalLanes {
  /* The streaming implementations on SIMD lanes: src/mshabal_sse4.c with four, and
     src/mshabal256_avx2.c with eight.  A vector register is a sequence of words, one a lane. */

  import opened Shabal
  import opened ShabalHash

  type Vec = seq<Word>

  // ----- Vectors -----

  function VLoad(b: Vec, m: Vec): (r: Vec)
    requires |b| == |m|
    ensures |r| == |b|
  {
    seq(|b|, k requires 0 <= k < |b| => LoadWord(b[k], m[k]))
  }

  function VXorAll(a: Vec, w: Word): (r: Vec)
    ensures |r| == |a|
  {
    seq(|a|, k requires 0 <= k < |a| => Xor(a[k], w))
  }

  function VMixA(a0: Vec, a1: Vec, b1: Vec, b2: Vec, b3: Vec, c: Vec, m: Vec): (r: Vec)
    requires |a0| == |a1| == |b1| == |b2| == |b3| == |c| == |m|
    ensures |r| == |a0|
  {
    seq(|a0|, k requires 0 <= k < |a0| => MixA(a0[k], a1[k], b1[k], b2[k], b3[k], c[k], m[k]))
  }

  function VMixB(b0: Vec, a: Vec): (r: Vec)
    requires |b0| == |a|
    ensures |r| == |b0|
  {
    seq(|b0|, k requires 0 <= k < |b0| => MixB(b0[k], a[k]))
  }

  function VAdd(a: Vec, c: Vec): (r: Vec)
    requires |a| == |c|
    ensures |r| == |a|
  {
    seq(|a|, k requires 0 <= k < |a| => Add(a[k], c[k]))
  }

  function VSub(c: Vec, m: Vec): (r: Vec)
    requires |c| == |m|
    ensures |r| == |c|
  {
    seq(|c|, k requires 0 <= k < |c| => Sub(c[k], m[k]))
  }

  // ----- One lane of an array of vectors -----

  predicate Wide(v: seq<Vec>, n: nat, lanes: nat) { |v| == n && forall i | 0 <= i < n :: |v[i]| == lanes }

  ghost function Lane(v: seq<Vec>, n: nat, lanes: nat, k: nat): (r: seq<Word>)
    requires Wide(v, n, lanes) && k < lanes
    ensures |r| == n
  {
    seq(n, i requires 0 <= i < n => v[i][k])
  }

  ghost predicate Shaped(a: seq<Vec>, b: seq<Vec>, c: seq<Vec>, lanes: nat) {
    Wide(a, 12, lanes) && Wide(b, 16, lanes) && Wide(c, 16, lanes)
  }

  ghost function LaneCore(a: seq<Vec>, b: seq<Vec>, c: seq<Vec>, lanes: nat, k: nat): (s: Core)
    requires Shaped(a, b, c, lanes) && k < lanes
    ensures IsCore(s)
  {
    Core(Lane(a, 12, lanes, k), Lane(b, 16, lanes, k), Lane(c, 16, lanes, k))
  }

  /** Changing one vector of an array changes one word of each lane. */
  lemma LaneUpdate(v: seq<Vec>, n: nat, lanes: nat, i: nat, x: Vec, k: nat)
    requires Wide(v, n, lanes) && i < n && |x| == lanes && k < lanes
    ensures Wide(v[i := x], n, lanes) && Lane(v[i := x], n, lanes, k) == Lane(v, n, lanes, k)[i := x[k]]
  {
  }

  /** One PP macro, on vectors and on each lane. */
  ghost predicate IsStep(a: seq<Vec>, b: seq<Vec>, c: seq<Vec>, m: seq<Vec>, lanes: nat, u: nat, a': seq<Vec>, b': seq<Vec>)
    requires Shaped(a, b, c, lanes) && Wide(m, 16, lanes)
  {
    var x := VMixA(a[u % 12], a[(u + 11) % 12], b[(u + 13) % 16], b[(u + 9) % 16], b[(u + 6) % 16], c[CIndex(u)], m[u % 16]);
    a' == a[u % 12 := x] && b' == b[u % 16 := VMixB(b[u % 16], x)]
  }

  lemma LaneStep(a: seq<Vec>, b: seq<Vec>, c: seq<Vec>, m: seq<Vec>, lanes: nat, u: nat, a': seq<Vec>, b': seq<Vec>, k: nat)
    requires Shaped(a, b, c, lanes) && Wide(m, 16, lanes) && k < lanes && IsStep(a, b, c, m, lanes, u, a', b')
    ensures Shaped(a', b', c, lanes)
    ensures LaneCore(a', b', c, lanes, k) == Step(LaneCore(a, b, c, lanes, k), Lane(m, 16, lanes, k), u)
  {
    hide MixA, MixB, CIndex;
    var i, i1, j, j1, j2, j3, q := u % 12, (u + 11) % 12, u % 16, (u + 13) % 16, (u + 9) % 16, (u + 6) % 16, CIndex(u);
    var x := VMixA(a[i], a[i1], b[j1], b[j2], b[j3], c[q], m[j]);
    LaneUpdate(a, 12, lanes, i, x, k);
    LaneUpdate(b, 16, lanes, j, VMixB(b[j], x), k);
  }

  lemma LaneAddC(a: seq<Vec>, c: seq<Vec>, lanes: nat, n: nat, k: nat)
    requires Wide(a, 12, lanes) && Wide(c, 16, lanes) && k < lanes
    ensures var j := 11 - n % 12; var a' := a[j := VAdd(a[j], c[(j + 11 + 4 * (n / 12)) % 16])];
            Wide(a', 12, lanes) && Lane(a', 12, lanes, k) == AddC(Lane(a, 12, lanes, k), Lane(c, 16, lanes, k), n)
  {
    hide Add;
    var j := 11 - n % 12;
    var q := (j + 11 + 4 * (n / 12)) % 16;
    LaneUpdate(a, 12, lanes, j, VAdd(a[j], c[q]), k);
  }

  // ----- The rest of a compression, lane by lane -----

  /** B[j] := rotl(B[j] + M[j], 17) for j < n. */
  ghost predicate LoadedTo(b: seq<Vec>, b': seq<Vec>, m: seq<Vec>, lanes: nat, n: nat) {
    && Wide(b, 16, lanes) && Wide(b', 16, lanes) && Wide(m, 16, lanes) && n <= 16
    && forall j | 0 <= j < 16 :: b'[j] == if j < n then VLoad(b[j], m[j]) else b[j]
  }

  lemma LaneLoad(b: seq<Vec>, b': seq<Vec>, m: seq<Vec>, lanes: nat, k: nat)
    requires LoadedTo(b, b', m, lanes, 16) && k < lanes
    ensures Lane(b', 16, lanes, k) == LoadB(Lane(b, 16, lanes, k), Lane(m, 16, lanes, k))
  {
    hide LoadWord;
  }

  lemma LaneXorW(a: seq<Vec>, w: Counter, lanes: nat, k: nat)
    requires Wide(a, 12, lanes) && k < lanes
    ensures var a' := a[0 := VXorAll(a[0], w.low)][1 := VXorAll(a[1], w.high)];
            Wide(a', 12, lanes) && Lane(a', 12, lanes, k) == XorW(Lane(a, 12, lanes, k), w)
  {
    hide Xor;
  }

  /** SWAP_AND_SUB for j < n. */
  ghost predicate SwappedTo(b: seq<Vec>, c: seq<Vec>, b': seq<Vec>, c': seq<Vec>, m: seq<Vec>, lanes: nat, n: nat) {
    && Wide(b, 16, lanes) && Wide(c, 16, lanes) && Wide(b', 16, lanes) && Wide(c', 16, lanes) && Wide(m, 16, lanes) && n <= 16
    && (forall j | 0 <= j < 16 :: b'[j] == if j < n then VSub(c[j], m[j]) else b[j])
    && (forall j | 0 <= j < 16 :: c'[j] == if j < n then b[j] else c[j])
  }

  lemma LaneSwap(b: seq<Vec>, c: seq<Vec>, b': seq<Vec>, c': seq<Vec>, m: seq<Vec>, lanes: nat, k: nat)
    requires SwappedTo(b, c, b', c', m, lanes, 16) && k < lanes
    ensures Lane(b', 16, lanes, k) == SubM(Lane(c, 16, lanes, k), Lane(m, 16, lanes, k))
    ensures Lane(c', 16, lanes, k) == Lane(b, 16, lanes, k)
  {
    hide Sub;
  }

  /** The 16 message vectors of one block of each lane. */
  function Transposed(blocks: seq<seq<Byte>>, lanes: nat): (m: seq<Vec>)
    requires |blocks| == lanes && forall k | 0 <= k < lanes :: |blocks[k]| == BLOCK
    ensures Wide(m, 16, lanes)
  {
    seq(16, i requires 0 <= i < 16 =>
      seq(lanes, k requires 0 <= k < lanes =>
        WordOf(blocks[k][4 * i], blocks[k][4 * i + 1], blocks[k][4 * i + 2], blocks[k][4 * i + 3])))
  }

  lemma LaneTransposed(blocks: seq<seq<Byte>>, lanes: nat, k: nat)
    requires |blocks| == lanes && (forall k | 0 <= k < lanes :: |blocks[k]| == BLOCK) && k < lanes
    ensures Lane(Transposed(blocks, lanes), 16, lanes, k) == BlockWords(blocks[k])
  {
    hide WordOf;
  }

  /** The three arrays after all of one compression. */
  method CompressVectors(a0: seq<Vec>, b0: seq<Vec>, c0: seq<Vec>, m: seq<Vec>, w: Counter, lanes: nat)
    returns (a: seq<Vec>, b: seq<Vec>, c: seq<Vec>)
    requires Shaped(a0, b0, c0, lanes) && Wide(m, 16, lanes)
    ensures Shaped(a, b, c, lanes)
    ensures forall k | 0 <= k < lanes ::
            LaneCore(a, b, c, lanes, k) == Compress(LaneCore(a0, b0, c0, lanes, k), Lane(m, 16, lanes, k), w)
  {
    hide LoadWord, MixA, MixB, Add, Sub, Xor, VMixA, VMixB, VLoad, VAdd, VSub, VXorAll, CIndex;
    a, b, c := a0, b0, c0;
    var j := 0;
    while j < 16
      invariant 0 <= j <= 16 && LoadedTo(b0, b, m, lanes, j)
    {
      b := b[j := VLoad(b[j], m[j])];
      j := j + 1;
    }
    a := a[0 := VXorAll(a[0], w.low)];
    a := a[1 := VXorAll(a[1], w.high)];
    forall k | 0 <= k < lanes
      ensures LaneCore(a, b, c, lanes, k) == Loaded(LaneCore(a0, b0, c0, lanes, k), Lane(m, 16, lanes, k), w)
    {
      LaneLoad(b0, b, m, lanes, k);
      LaneXorW(a0, w, lanes, k);
    }
    a, b := StepVectors(a, b, c, m, lanes);
    a := AddVectors(a, c, lanes);
    b, c := SwapVectors(b, c, m, lanes);
    forall k | 0 <= k < lanes
      ensures LaneCore(a, b, c, lanes, k) == Compress(LaneCore(a0, b0, c0, lanes, k), Lane(m, 16, lanes, k), w)
    {
      LaneCompress(LaneCore(a0, b0, c0, lanes, k), Lane(m, 16, lanes, k), w);
    }
  }

  function Loaded(s: Core, m: seq<Word>, w: Counter): (s': Core)
    requires IsCore(s) && |m| == 16
    ensures IsCore(s')
  {
    Core(XorW(s.a, w), LoadB(s.b, m), s.c)
  }

  lemma LaneCompress(s: Core, m: seq<Word>, w: Counter)
    requires IsCore(s) && |m| == 16
    ensures var s1 := Steps(Loaded(s, m, w), m, STEPS);
            Compress(s, m, w) == Core(AddCs(s1.a, s.c, 36), SubM(s.c, m), s1.b)
  {
  }

  method StepVectors(a0: seq<Vec>, b0: seq<Vec>, c: seq<Vec>, m: seq<Vec>, lanes: nat) returns (a: seq<Vec>, b: seq<Vec>)
    requires Shaped(a0, b0, c, lanes) && Wide(m, 16, lanes)
    ensures Shaped(a, b, c, lanes)
    ensures forall k | 0 <= k < lanes ::
            LaneCore(a, b, c, lanes, k) == Steps(LaneCore(a0, b0, c, lanes, k), Lane(m, 16, lanes, k), STEPS)
  {
    hide VMixA, VMixB, CIndex, Step;
    a, b := a0, b0;
    var u := 0;
    while u < STEPS
      invariant 0 <= u <= STEPS && Shaped(a, b, c, lanes)
      invariant forall k | 0 <= k < lanes ::
                LaneCore(a, b, c, lanes, k) == Steps(LaneCore(a0, b0, c, lanes, k), Lane(m, 16, lanes, k), u)
    {
      var x := VMixA(a[u % 12], a[(u + 11) % 12], b[(u + 13) % 16], b[(u + 9) % 16], b[(u + 6) % 16], c[CIndex(u)], m[u % 16]);
      ghost var a1, b1 := a, b;
      a := a[u % 12 := x];
      b := b[u % 16 := VMixB(b[u % 16], x)];
      forall k | 0 <= k < lanes
        ensures Shaped(a, b, c, lanes)
                && LaneCore(a, b, c, lanes, k) == Steps(LaneCore(a0, b0, c, lanes, k), Lane(m, 16, lanes, k), u + 1)
      {
        LaneStep(a1, b1, c, m, lanes, u, a, b, k);
      }
      u := u + 1;
    }
  }

  method AddVectors(a0: seq<Vec>, c: seq<Vec>, lanes: nat) returns (a: seq<Vec>)
    requires Wide(a0, 12, lanes) && Wide(c, 16, lanes)
    ensures Wide(a, 12, lanes)
    ensures forall k | 0 <= k < lanes :: Lane(a, 12, lanes, k) == AddCs(Lane(a0, 12, lanes, k), Lane(c, 16, lanes, k), 36)
  {
    hide VAdd, AddC;
    a := a0;
    var n := 0;
    while n < 36
      invariant 0 <= n <= 36 && Wide(a, 12, lanes)
      invariant forall k | 0 <= k < lanes :: Lane(a, 12, lanes, k) == AddCs(Lane(a0, 12, lanes, k), Lane(c, 16, lanes, k), n)
    {
      var j := 11 - n % 12;
      ghost var a1 := a;
      a := a[j := VAdd(a[j], c[(j + 11 + 4 * (n / 12)) % 16])];
      forall k | 0 <= k < lanes
        ensures Wide(a, 12, lanes) && Lane(a, 12, lanes, k) == AddCs(Lane(a0, 12, lanes, k), Lane(c, 16, lanes, k), n + 1)
      {
        LaneAddC(a1, c, lanes, n, k);
      }
      n := n + 1;
    }
  }

  method SwapVectors(b0: seq<Vec>, c0: seq<Vec>, m: seq<Vec>, lanes: nat) returns (b: seq<Vec>, c: seq<Vec>)
    requires Wide(b0, 16, lanes) && Wide(c0, 16, lanes) && Wide(m, 16, lanes)
    ensures Wide(b, 16, lanes) && Wide(c, 16, lanes)
    ensures forall k | 0 <= k < lanes :: Lane(b, 16, lanes, k) == SubM(Lane(c0, 16, lanes, k), Lane(m, 16, lanes, k))
    ensures forall k | 0 <= k < lanes :: Lane(c, 16, lanes, k) == Lane(b0, 16, lanes, k)
  {
    hide VSub;
    b, c := b0, c0;
    var j := 0;
    while j < 16
      invariant 0 <= j <= 16 && SwappedTo(b0, c0, b, c, m, lanes, j)
    {
      var tmp := b[j];
      b := b[j := VSub(c[j], m[j])];
      c := c[j := tmp];
      j := j + 1;
    }
    forall k | 0 <= k < lanes
      ensures Lane(b, 16, lanes, k) == SubM(Lane(c0, 16, lanes, k), Lane(m, 16, lanes, k))
              && Lane(c, 16, lanes, k) == Lane(b0, 16, lanes, k)
    {
      LaneSwap(b0, c0, b, c, m, lanes, k);
    }
  }
}
