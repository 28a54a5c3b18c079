/** The table of initial states in src/shabal64.s, for outputs of 256 bits: it holds what the other
    implementations compute from the two initial blocks, 256 .. 271 under W = -1 and 272 .. 287 under
    W = 0.

    A compression is checked against a certificate, the words that its 48 steps compute on the way,
    four in a row: each row is four equations on words that are given, so that no step is evaluated
    on a symbolic state. That rows which follow one another make a run of the permutation, and that a
    run with the right ends makes a compression, is proved once for every state and block. The rows
    of the two compressions and of the table are the constants below. */
module InitialState {
  import opened Shabal
  import opened ShabalHash

  // ----- Certificates -----

  /** Four words in a row. */
  datatype Row = Row(w0: Word, w1: Word, w2: Word, w3: Word)

  function Pick(r: Row, i: nat): Word { match i case 0 => r.w0 case 1 => r.w1 case 2 => r.w2 case _ => r.w3 }

  /** The A and B words of a run in the order they come: step u computes A word u + 12 and B word
      u + 16 from A words u and u + 11 and B words u, u + 6, u + 9 and u + 13. */
  datatype Trace = Trace(a: seq<Row>, b: seq<Row>)

  predicate IsTrace(t: Trace) { |t.a| == 15 && |t.b| == 16 }

  function WordA(t: Trace, k: nat): Word
    requires IsTrace(t) && k < STEPS + 12
  {
    Pick(t.a[k / 4], k % 4)
  }

  function WordB(t: Trace, k: nat): Word
    requires IsTrace(t) && k < STEPS + 16
  {
    Pick(t.b[k / 4], k % 4)
  }

  /** Step u, on the words of the trace. */
  predicate StepFollows(t: Trace, c: seq<Word>, m: seq<Word>, u: nat)
    requires IsTrace(t) && |c| == |m| == 16 && u < STEPS
  {
    && WordA(t, u + 12) == MixA(WordA(t, u), WordA(t, u + 11), WordB(t, u + 13), WordB(t, u + 9), WordB(t, u + 6),
                                c[CIndex(u)], m[u % 16])
    && WordB(t, u + 16) == MixB(WordB(t, u), WordA(t, u + 12))
  }

  /** Four steps, which fill the rows a3 and b4. */
  predicate RowFollows(a0: Row, a2: Row, a3: Row, b0: Row, b1: Row, b2: Row, b3: Row, b4: Row, c: Row, m: Row) {
    && a3.w0 == MixA(a0.w0, a2.w3, b3.w1, b2.w1, b1.w2, c.w0, m.w0) && b4.w0 == MixB(b0.w0, a3.w0)
    && a3.w1 == MixA(a0.w1, a3.w0, b3.w2, b2.w2, b1.w3, c.w1, m.w1) && b4.w1 == MixB(b0.w1, a3.w1)
    && a3.w2 == MixA(a0.w2, a3.w1, b3.w3, b2.w3, b2.w0, c.w2, m.w2) && b4.w2 == MixB(b0.w2, a3.w2)
    && a3.w3 == MixA(a0.w3, a3.w2, b4.w0, b3.w0, b2.w1, c.w3, m.w3) && b4.w3 == MixB(b0.w3, a3.w3)
  }

  function RowOf(s: seq<Word>, q: nat): Row
    requires 4 * q + 4 <= |s|
  {
    Row(s[4 * q], s[4 * q + 1], s[4 * q + 2], s[4 * q + 3])
  }

  /** The C words of four steps: C is read backwards. */
  function RowC(c: seq<Word>, r: nat): Row
    requires |c| == 16
  {
    var u := 4 * r;
    Row(c[CIndex(u)], c[CIndex(u + 1)], c[CIndex(u + 2)], c[CIndex(u + 3)])
  }

  function RowM(m: seq<Word>, r: nat): Row
    requires |m| == 16
  {
    RowOf(m, r % 4)
  }

  predicate RowFollowsAt(t: Trace, c: seq<Word>, m: seq<Word>, r: nat)
    requires IsTrace(t) && |c| == |m| == 16 && r < 12
  {
    RowFollows(t.a[r], t.a[r + 2], t.a[r + 3], t.b[r], t.b[r + 1], t.b[r + 2], t.b[r + 3], t.b[r + 4],
               RowC(c, r), RowM(m, r))
  }

  lemma WordInRow(t: Trace, r: nat, i: nat)
    requires IsTrace(t) && i < 4
    ensures r < 15 ==> WordA(t, 4 * r + i) == Pick(t.a[r], i)
    ensures r < 16 ==> WordB(t, 4 * r + i) == Pick(t.b[r], i)
  {
  }

  lemma RowCAt(c: seq<Word>, r: nat, i: nat)
    requires |c| == 16 && i < 4
    ensures Pick(RowC(c, r), i) == c[CIndex(4 * r + i)]
  {
    hide CIndex;
  }

  lemma RowMAt(m: seq<Word>, r: nat, i: nat)
    requires |m| == 16 && i < 4
    ensures Pick(RowM(m, r), i) == m[(4 * r + i) % 16]
  {
    var q, d := r % 4, r / 4;
    assert 4 * r + i == 16 * d + (4 * q + i) && 0 <= 4 * q + i < 16;
    assert (4 * r + i) % 16 == 4 * q + i;
    assert RowOf(m, q) == Row(m[4 * q], m[4 * q + 1], m[4 * q + 2], m[4 * q + 3]);
    hide RowOf;
  }

  lemma Step0OfRow(t: Trace, c: seq<Word>, m: seq<Word>, r: nat)
    requires IsTrace(t) && |c| == |m| == 16 && r < 12 && RowFollowsAt(t, c, m, r)
    ensures StepFollows(t, c, m, 4 * r)
  {
    hide MixA, MixB, CIndex, RowC, RowM, WordA, WordB;
    WordInRow(t, r, 0); WordInRow(t, r + 1, 2); WordInRow(t, r + 2, 1); WordInRow(t, r + 2, 3);
    WordInRow(t, r + 3, 0); WordInRow(t, r + 3, 1); WordInRow(t, r + 4, 0);
    RowCAt(c, r, 0);
    RowMAt(m, r, 0);
  }

  lemma Step1OfRow(t: Trace, c: seq<Word>, m: seq<Word>, r: nat)
    requires IsTrace(t) && |c| == |m| == 16 && r < 12 && RowFollowsAt(t, c, m, r)
    ensures StepFollows(t, c, m, 4 * r + 1)
  {
    hide MixA, MixB, CIndex, RowC, RowM, WordA, WordB;
    WordInRow(t, r, 1); WordInRow(t, r + 1, 3); WordInRow(t, r + 2, 2); WordInRow(t, r + 3, 0);
    WordInRow(t, r + 3, 1); WordInRow(t, r + 3, 2); WordInRow(t, r + 4, 1);
    RowCAt(c, r, 1);
    RowMAt(m, r, 1);
  }

  lemma Step2OfRow(t: Trace, c: seq<Word>, m: seq<Word>, r: nat)
    requires IsTrace(t) && |c| == |m| == 16 && r < 12 && RowFollowsAt(t, c, m, r)
    ensures StepFollows(t, c, m, 4 * r + 2)
  {
    hide MixA, MixB, CIndex, RowC, RowM, WordA, WordB;
    WordInRow(t, r, 2); WordInRow(t, r + 2, 0); WordInRow(t, r + 2, 3); WordInRow(t, r + 3, 1);
    WordInRow(t, r + 3, 2); WordInRow(t, r + 3, 3); WordInRow(t, r + 4, 2);
    RowCAt(c, r, 2);
    RowMAt(m, r, 2);
  }

  lemma Step3OfRow(t: Trace, c: seq<Word>, m: seq<Word>, r: nat)
    requires IsTrace(t) && |c| == |m| == 16 && r < 12 && RowFollowsAt(t, c, m, r)
    ensures StepFollows(t, c, m, 4 * r + 3)
  {
    hide MixA, MixB, CIndex, RowC, RowM, WordA, WordB;
    WordInRow(t, r, 3); WordInRow(t, r + 2, 1); WordInRow(t, r + 3, 0); WordInRow(t, r + 3, 2);
    WordInRow(t, r + 3, 3); WordInRow(t, r + 4, 0); WordInRow(t, r + 4, 3);
    RowCAt(c, r, 3);
    RowMAt(m, r, 3);
  }

  lemma RowIsFourSteps(t: Trace, c: seq<Word>, m: seq<Word>, u: nat)
    requires IsTrace(t) && |c| == |m| == 16 && u < STEPS && RowFollowsAt(t, c, m, u / 4)
    ensures StepFollows(t, c, m, u)
  {
    hide StepFollows, RowFollowsAt;
    if u % 4 == 0 { Step0OfRow(t, c, m, u / 4); }
    else if u % 4 == 1 { Step1OfRow(t, c, m, u / 4); }
    else if u % 4 == 2 { Step2OfRow(t, c, m, u / 4); }
    else { Step3OfRow(t, c, m, u / 4); }
  }

  /** The state before step u. */
  ghost predicate Shows(t: Trace, s: Core, u: nat)
    requires IsTrace(t) && IsCore(s) && u <= STEPS
  {
    && (forall k | u <= k < u + 12 :: s.a[k % 12] == WordA(t, k))
    && (forall k | u <= k < u + 16 :: s.b[k % 16] == WordB(t, k))
  }

  lemma StepComputes(t: Trace, s: Core, m: seq<Word>, u: nat)
    requires IsTrace(t) && IsCore(s) && |m| == 16 && u < STEPS && Shows(t, s, u) && StepFollows(t, s.c, m, u)
    ensures Step(s, m, u) == Core(s.a[u % 12 := WordA(t, u + 12)], s.b[u % 16 := WordB(t, u + 16)], s.c)
  {
    hide MixA, MixB, WordA, WordB, CIndex;
    assert s.a[u % 12] == WordA(t, u) && s.a[(u + 11) % 12] == WordA(t, u + 11);
    assert s.b[u % 16] == WordB(t, u) && s.b[(u + 6) % 16] == WordB(t, u + 6);
    assert s.b[(u + 9) % 16] == WordB(t, u + 9) && s.b[(u + 13) % 16] == WordB(t, u + 13);
    hide Shows;
  }

  lemma RolledA(t: Trace, a: seq<Word>, u: nat)
    requires IsTrace(t) && |a| == 12 && u < STEPS && forall k | u <= k < u + 12 :: a[k % 12] == WordA(t, k)
    ensures forall k | u + 1 <= k < u + 13 :: a[u % 12 := WordA(t, u + 12)][k % 12] == WordA(t, k)
  {
    hide WordA;
    forall k | u + 1 <= k < u + 13 ensures a[u % 12 := WordA(t, u + 12)][k % 12] == WordA(t, k) {
      assert k == u + 12 || a[k % 12] == WordA(t, k);
    }
  }

  lemma RolledB(t: Trace, b: seq<Word>, u: nat)
    requires IsTrace(t) && |b| == 16 && u < STEPS && forall k | u <= k < u + 16 :: b[k % 16] == WordB(t, k)
    ensures forall k | u + 1 <= k < u + 17 :: b[u % 16 := WordB(t, u + 16)][k % 16] == WordB(t, k)
  {
    hide WordB;
    forall k | u + 1 <= k < u + 17 ensures b[u % 16 := WordB(t, u + 16)][k % 16] == WordB(t, k) {
      assert k == u + 16 || b[k % 16] == WordB(t, k);
    }
  }

  lemma StepShows(t: Trace, s: Core, m: seq<Word>, u: nat)
    requires IsTrace(t) && IsCore(s) && |m| == 16 && u < STEPS && Shows(t, s, u) && StepFollows(t, s.c, m, u)
    ensures Shows(t, Step(s, m, u), u + 1)
  {
    hide Step, StepFollows, WordA, WordB;
    StepComputes(t, s, m, u);
    RolledA(t, s.a, u);
    RolledB(t, s.b, u);
  }

  lemma {:induction false} RunShows(t: Trace, s: Core, m: seq<Word>, n: nat)
    requires IsTrace(t) && IsCore(s) && |m| == 16 && n <= STEPS && Shows(t, s, 0)
    requires forall r | 0 <= r < 12 :: RowFollowsAt(t, s.c, m, r)
    ensures Shows(t, Steps(s, m, n), n)
  {
    hide Shows, Step, RowFollowsAt, StepFollows;
    if n > 0 {
      RunShows(t, s, m, n - 1);
      RowIsFourSteps(t, s.c, m, n - 1);
      StepShows(t, Steps(s, m, n - 1), m, n - 1);
    }
  }

  function AddRow(r: Row, s: Row): Row { Row(Add(r.w0, s.w0), Add(r.w1, s.w1), Add(r.w2, s.w2), Add(r.w3, s.w3)) }

  /** The sums of C words that the last 36 additions add to four A words. */
  function SumRow(c: seq<Word>, q: nat): Row
    requires |c| == 16
  {
    Row(SumC(c, 4 * q), SumC(c, 4 * q + 1), SumC(c, 4 * q + 2), SumC(c, 4 * q + 3))
  }

  /** A certificate: it starts at the state with the block loaded, each row of it is right, and s' is
      what the additions and subtractions after the last step make of its last rows. */
  ghost predicate Certifies(t: Trace, s: Core, m: seq<Word>, w: Counter, s': Core)
    requires IsCore(s) && |m| == 16 && IsCore(s')
  {
    && IsTrace(t)
    && (forall q | 0 <= q < 3 :: t.a[q] == RowOf(XorW(s.a, w), q))
    && (forall q | 0 <= q < 4 :: t.b[q] == RowOf(LoadB(s.b, m), q))
    && (forall r | 0 <= r < 12 :: RowFollowsAt(t, s.c, m, r))
    && (forall q | 0 <= q < 3 :: RowOf(s'.a, q) == AddRow(t.a[12 + q], SumRow(s.c, q)))
    && (forall q | 0 <= q < 4 :: RowOf(s'.b, q) == RowOf(SubM(s.c, m), q) && RowOf(s'.c, q) == t.b[12 + q])
  }

  lemma WordOfRow(s: seq<Word>, i: nat)
    requires 4 * (i / 4) + 4 <= |s|
    ensures Pick(RowOf(s, i / 4), i % 4) == s[i]
  {
  }

  lemma StartsA(t: Trace, a: seq<Word>, k: nat)
    requires IsTrace(t) && |a| == 12 && (forall q | 0 <= q < 3 :: t.a[q] == RowOf(a, q)) && k < 12
    ensures a[k % 12] == WordA(t, k)
  {
    hide RowOf, Pick;
    WordOfRow(a, k);
  }

  lemma StartsB(t: Trace, b: seq<Word>, k: nat)
    requires IsTrace(t) && |b| == 16 && (forall q | 0 <= q < 4 :: t.b[q] == RowOf(b, q)) && k < 16
    ensures b[k % 16] == WordB(t, k)
  {
    hide RowOf, Pick;
    WordOfRow(b, k);
  }

  lemma CertificateStarts(t: Trace, s: Core, m: seq<Word>, w: Counter, s': Core)
    requires IsCore(s) && |m| == 16 && IsCore(s') && Certifies(t, s, m, w, s')
    ensures Shows(t, Core(XorW(s.a, w), LoadB(s.b, m), s.c), 0)
  {
    var a, b := XorW(s.a, w), LoadB(s.b, m);
    hide RowFollowsAt, XorW, LoadB, AddRow, SumRow, SubM, RowOf, WordA, WordB;
    forall k | 0 <= k < 12 ensures a[k % 12] == WordA(t, k) { StartsA(t, a, k); }
    forall k | 0 <= k < 16 ensures b[k % 16] == WordB(t, k) { StartsB(t, b, k); }
  }

  lemma CertificateEndsA(t: Trace, s: Core, m: seq<Word>, w: Counter, s': Core, s1: Core, i: nat)
    requires IsCore(s) && |m| == 16 && IsCore(s') && Certifies(t, s, m, w, s')
    requires IsCore(s1) && s1.c == s.c && Shows(t, s1, STEPS)
    requires i < 12
    ensures AddCs(s1.a, s1.c, 36)[i] == s'.a[i]
  {
    hide RowFollowsAt, XorW, LoadB, SubM, AddCs, SumC, Add;
    AddCsSum(s1.a, s1.c, i);
    WordOfRow(s'.a, i);
    assert (STEPS + i) % 12 == i && (STEPS + i) / 4 == 12 + i / 4 && (STEPS + i) % 4 == i % 4;
    assert s1.a[(STEPS + i) % 12] == WordA(t, STEPS + i);
    hide RowOf, Certifies, Shows;
  }

  lemma CertificateEndsBC(t: Trace, s: Core, m: seq<Word>, w: Counter, s': Core, s1: Core, i: nat)
    requires IsCore(s) && |m| == 16 && IsCore(s') && Certifies(t, s, m, w, s')
    requires IsCore(s1) && s1.c == s.c && Shows(t, s1, STEPS)
    requires i < 16
    ensures s1.b[i] == s'.c[i] && SubM(s.c, m)[i] == s'.b[i]
  {
    hide RowFollowsAt, XorW, LoadB, SubM, AddRow, SumRow, RowOf, Pick;
    WordOfRow(s'.b, i);
    WordOfRow(SubM(s.c, m), i);
    WordOfRow(s'.c, i);
    assert (STEPS + i) % 16 == i && (STEPS + i) / 4 == 12 + i / 4 && (STEPS + i) % 4 == i % 4;
    assert s1.b[(STEPS + i) % 16] == WordB(t, STEPS + i);
  }

  lemma CertifiedCompression(t: Trace, s: Core, m: seq<Word>, w: Counter, s': Core)
    requires IsCore(s) && |m| == 16 && IsCore(s') && Certifies(t, s, m, w, s')
    ensures Compress(s, m, w) == s'
  {
    CertificateStarts(t, s, m, w, s');
    var s0 := Core(XorW(s.a, w), LoadB(s.b, m), s.c);
    RunShows(t, s0, m, STEPS);
    var s1 := Steps(s0, m, STEPS);
    hide Certifies, Shows, Steps, AddCs, SubM, XorW, LoadB;
    forall i | 0 <= i < 12 ensures AddCs(s1.a, s1.c, 36)[i] == s'.a[i] { CertificateEndsA(t, s, m, w, s', s1, i); }
    forall i | 0 <= i < 16 ensures s1.b[i] == s'.c[i] && SubM(s.c, m)[i] == s'.b[i] {
      CertificateEndsBC(t, s, m, w, s', s1, i);
    }
  }

  // ----- The two initial blocks for 256 bits -----

  // The words of the steps, of the two blocks, and of the table, row by row.

  const FIRST_A0: Row := Row(0xFFFFFFFF, 0xFFFFFFFF, 0x00000000, 0x00000000)
  const FIRST_A1: Row := Row(0x00000000, 0x00000000, 0x00000000, 0x00000000)
  const FIRST_A2: Row := Row(0x00000000, 0x00000000, 0x00000000, 0x00000000)
  const FIRST_A3: Row := Row(0xFDF7FEFD, 0x05830E49, 0xE93BA84D, 0x68485532)
  const FIRST_A4: Row := Row(0x8088FEAE, 0x64D8954B, 0xCC08DF9F, 0xF2497B68)
  const FIRST_A5: Row := Row(0x7EC08316, 0xF007C07B, 0xBBB8A77D, 0x6C368247)
  const FIRST_A6: Row := Row(0xAE3F47E2, 0xC68A60D9, 0xC63E700C, 0x04FB82A0)
  const FIRST_A7: Row := Row(0xE71B593F, 0xCEE92B6C, 0x8C12EDDC, 0xA21E4A11)
  const FIRST_A8: Row := Row(0xA72272C9, 0xB2929B0B, 0x78EE6F01, 0xC3B82A6F)
  const FIRST_A9: Row := Row(0xFF750C93, 0xE5788A46, 0x9BBD7565, 0xCC341456)
  const FIRST_A10: Row := Row(0xAD7FFC12, 0xCE83FA1C, 0x6511FD37, 0xE0E9DCD1)
  const FIRST_A11: Row := Row(0x63437189, 0x5A4096A5, 0xF43EE330, 0x99D36D67)
  const FIRST_A12: Row := Row(0x79F023D8, 0x708745B8, 0xB2D69F0A, 0xAB24079A)
  const FIRST_A13: Row := Row(0x4C77DDAC, 0xB4B92870, 0x88E6ECE2, 0x747657E4)
  const FIRST_A14: Row := Row(0x3395A2D7, 0x5A9826A0, 0x0D578B50, 0x68F97918)

  const FIRST_B0: Row := Row(0x02000000, 0x02020000, 0x02040000, 0x02060000)
  const FIRST_B1: Row := Row(0x02080000, 0x020A0000, 0x020C0000, 0x020E0000)
  const FIRST_B2: Row := Row(0x02100000, 0x02120000, 0x02140000, 0x02160000)
  const FIRST_B3: Row := Row(0x02180000, 0x021A0000, 0x021C0000, 0x021E0000)
  const FIRST_B4: Row := Row(0x06080102, 0xFE78F1B6, 0x12CC57B2, 0x93BBAACD)
  const FIRST_B5: Row := Row(0x7B670151, 0x9F336AB4, 0x37EF2060, 0x09AA8497)
  const FIRST_B6: Row := Row(0x851F7CE9, 0x0BDC3F84, 0x406F5882, 0x97E57DB8)
  const FIRST_B7: Row := Row(0x55F0B81D, 0x3D419F26, 0x3DF98FF3, 0xFF387D5F)
  const FIRST_B8: Row := Row(0x14F4A4C4, 0xCDE737FE, 0x5675BD47, 0x7A96E075)
  const FIRST_B9: Row := Row(0xAE138F94, 0x730BB19D, 0xE8CFD03E, 0x2F12DCBE)
  const FIRST_B10: Row := Row(0x0AB40ABF, 0x0D3F0AB1, 0xE49C3B9E, 0x1C0110D8)
  const FIRST_B11: Row := Row(0xF96173D7, 0x4BFF3BAF, 0xE11D1D2E, 0xE166D991)
  const FIRST_B12: Row := Row(0xB555C7FE, 0x3E7106A7, 0xA72A6641, 0x93015272)
  const FIRST_B13: Row := Row(0xDA28C30E, 0x696FD97D, 0x9CB6C088, 0x0AFE4119)
  const FIRST_B14: Row := Row(0xA6E0372D, 0x5138C2ED, 0xBE216420, 0xB38B89AB)
  const FIRST_B15: Row := Row(0x3EA8BA87, 0x3299AE01, 0x30924EF2, 0x55CB35C4)

  const SECOND_A0: Row := Row(0x79F023D8, 0x708745B8, 0xB2D69F0A, 0xAB24079A)
  const SECOND_A1: Row := Row(0x4C77DDAC, 0xB4B92870, 0x88E6ECE2, 0x747657E4)
  const SECOND_A2: Row := Row(0x3395A2D7, 0x5A9826A0, 0x0D578B50, 0x68F97918)
  const SECOND_A3: Row := Row(0x552736DB, 0x5A37F06B, 0xE664BB1D, 0x9E1CEB60)
  const SECOND_A4: Row := Row(0x2B03CF2C, 0xFED97162, 0x7F90F2B4, 0x4069B7E1)
  const SECOND_A5: Row := Row(0xCCB74C96, 0x09778D59, 0x6B24AB90, 0x80A11478)
  const SECOND_A6: Row := Row(0x7F0490C3, 0x946910EC, 0x827CA63E, 0x409A1072)
  const SECOND_A7: Row := Row(0xF3ED9027, 0x290439AE, 0xAA0C583B, 0xB9A9271C)
  const SECOND_A8: Row := Row(0x10A66C48, 0xD8CCDB49, 0x02B680C7, 0xAB645FCF)
  const SECOND_A9: Row := Row(0xD455C979, 0x9F6F4358, 0x7F3D0246, 0xE8A1F260)
  const SECOND_A10: Row := Row(0xBE9C04EA, 0x15A315D0, 0x279AC5A8, 0x1C34F0F3)
  const SECOND_A11: Row := Row(0xF9BDF4EC, 0x000B73B4, 0x80069A86, 0x35038111)
  const SECOND_A12: Row := Row(0xB6A03371, 0x17243406, 0x531455C7, 0x44F0DBD6)
  const SECOND_A13: Row := Row(0xEC3CC237, 0x851D8290, 0xD99C1EB9, 0xAED060A3)
  const SECOND_A14: Row := Row(0xC3433D0F, 0x62FD9C1A, 0x02BB7200, 0x5FB743B0)

  const SECOND_B0: Row := Row(0x00200000, 0x00200000, 0x00200000, 0x00200000)
  const SECOND_B1: Row := Row(0x00200000, 0x00200000, 0x00200000, 0x00200000)
  const SECOND_B2: Row := Row(0x00200000, 0x00200000, 0x00200000, 0x00200000)
  const SECOND_B3: Row := Row(0x00200000, 0x00200000, 0x00200000, 0x00200000)
  const SECOND_B4: Row := Row(0xAA98C924, 0xA5880F94, 0x19DB44E2, 0x61A3149F)
  const SECOND_B5: Row := Row(0xD4BC30D3, 0x01668E9D, 0x802F0D4B, 0xBFD6481E)
  const SECOND_B6: Row := Row(0x3308B369, 0xF6C872A6, 0x949B546F, 0x7F1EEB87)
  const SECOND_B7: Row := Row(0x80BB6F3C, 0x6BD6EF13, 0x7DC359C1, 0xBF25EF8D)
  const SECOND_B8: Row := Row(0x5923FD91, 0x9DEBD978, 0x66452E00, 0x8510F1DD)
  const SECOND_B9: Row := Row(0x4621F210, 0x25FE398C, 0xFD1765AF, 0x2B37300D)
  const SECOND_B10: Row := Row(0x4DBB5054, 0x8D0059EA, 0xA9F45566, 0xE963DA91)
  const SECOND_B11: Row := Row(0x4015256C, 0x3DF13409, 0x23E389D5, 0x9D80D017)
  const SECOND_B12: Row := Row(0xB405F031, 0xC4233EBA, 0xB3733979, 0xC0DD9D55)
  const SECOND_B13: Row := Row(0xC51C28AE, 0xA327B8E1, 0x56C56167, 0xED614433)
  const SECOND_B14: Row := Row(0x88B59D60, 0x60E2CEBA, 0x758B4B8B, 0x83E82A7F)
  const SECOND_B15: Row := Row(0xBC968828, 0xE6E00BF7, 0xBA839E55, 0x9B491C60)

  const FIRST_M0: Row := Row(0x00000100, 0x00000101, 0x00000102, 0x00000103)
  const FIRST_M1: Row := Row(0x00000104, 0x00000105, 0x00000106, 0x00000107)
  const FIRST_M2: Row := Row(0x00000108, 0x00000109, 0x0000010A, 0x0000010B)
  const FIRST_M3: Row := Row(0x0000010C, 0x0000010D, 0x0000010E, 0x0000010F)

  const SECOND_M0: Row := Row(0x00000110, 0x00000111, 0x00000112, 0x00000113)
  const SECOND_M1: Row := Row(0x00000114, 0x00000115, 0x00000116, 0x00000117)
  const SECOND_M2: Row := Row(0x00000118, 0x00000119, 0x0000011A, 0x0000011B)
  const SECOND_M3: Row := Row(0x0000011C, 0x0000011D, 0x0000011E, 0x0000011F)

  const TABLE_0: Row := Row(0x52F84552, 0xE54B7999, 0x2D8EE3EC, 0xB9645191)
  const TABLE_1: Row := Row(0xE0078B86, 0xBB7C44C9, 0xD2B5C1CA, 0xB0D2EB8C)
  const TABLE_2: Row := Row(0x14CE5A45, 0x22AF50DC, 0xEFFDBC6B, 0xEB21B74A)
  const TABLE_3: Row := Row(0xB555C6EE, 0x3E710596, 0xA72A652F, 0x9301515F)
  const TABLE_4: Row := Row(0xDA28C1FA, 0x696FD868, 0x9CB6BF72, 0x0AFE4002)
  const TABLE_5: Row := Row(0xA6E03615, 0x5138C1D4, 0xBE216306, 0xB38B8890)
  const TABLE_6: Row := Row(0x3EA8B96B, 0x3299ACE4, 0x30924DD4, 0x55CB34A5)
  const TABLE_7: Row := Row(0xB405F031, 0xC4233EBA, 0xB3733979, 0xC0DD9D55)
  const TABLE_8: Row := Row(0xC51C28AE, 0xA327B8E1, 0x56C56167, 0xED614433)
  const TABLE_9: Row := Row(0x88B59D60, 0x60E2CEBA, 0x758B4B8B, 0x83E82A7F)
  const TABLE_10: Row := Row(0xBC968828, 0xE6E00BF7, 0xBA839E55, 0x9B491C60)

  const ZEROS: Row := Row(0, 0, 0, 0)

  const FIRST: Trace := Trace(
    [FIRST_A0, FIRST_A1, FIRST_A2, FIRST_A3, FIRST_A4, FIRST_A5, FIRST_A6, FIRST_A7,
     FIRST_A8, FIRST_A9, FIRST_A10, FIRST_A11, FIRST_A12, FIRST_A13, FIRST_A14],
    [FIRST_B0, FIRST_B1, FIRST_B2, FIRST_B3, FIRST_B4, FIRST_B5, FIRST_B6, FIRST_B7,
     FIRST_B8, FIRST_B9, FIRST_B10, FIRST_B11, FIRST_B12, FIRST_B13, FIRST_B14, FIRST_B15])

  const SECOND: Trace := Trace(
    [SECOND_A0, SECOND_A1, SECOND_A2, SECOND_A3, SECOND_A4, SECOND_A5, SECOND_A6, SECOND_A7,
     SECOND_A8, SECOND_A9, SECOND_A10, SECOND_A11, SECOND_A12, SECOND_A13, SECOND_A14],
    [SECOND_B0, SECOND_B1, SECOND_B2, SECOND_B3, SECOND_B4, SECOND_B5, SECOND_B6, SECOND_B7,
     SECOND_B8, SECOND_B9, SECOND_B10, SECOND_B11, SECOND_B12, SECOND_B13, SECOND_B14, SECOND_B15])

  function Words(rows: seq<Row>): (s: seq<Word>)
    ensures |s| == 4 * |rows|
  {
    seq(4 * |rows|, i requires 0 <= i < 4 * |rows| => Pick(rows[i / 4], i % 4))
  }

  lemma RowOfWords(rows: seq<Row>, q: nat)
    requires q < |rows|
    ensures RowOf(Words(rows), q) == rows[q]
  {
  }

  /** The state between the two blocks. */
  const MIDDLE: Core := Core(
    Words([FIRST_A12, FIRST_A13, FIRST_A14]),
    SubM(Zero().c, BlockWords(InitBlock(256))),
    Words([FIRST_B12, FIRST_B13, FIRST_B14, FIRST_B15]))

  /** The 44 words of the table: A, B and C. */
  const TABLE: Core := Core(
    Words([TABLE_0, TABLE_1, TABLE_2]),
    Words([TABLE_3, TABLE_4, TABLE_5, TABLE_6]),
    Words([TABLE_7, TABLE_8, TABLE_9, TABLE_10]))

  predicate IsFirstALow(a: seq<Row>) {
    && |a| == 15
    && a[0] == FIRST_A0 && a[1] == FIRST_A1 && a[2] == FIRST_A2 && a[3] == FIRST_A3
    && a[4] == FIRST_A4 && a[5] == FIRST_A5 && a[6] == FIRST_A6 && a[7] == FIRST_A7
  }

  lemma FirstIsALow()
    ensures IsFirstALow(FIRST.a)
  {
  }

  predicate IsFirstAHigh(a: seq<Row>) {
    && |a| == 15
    && a[8] == FIRST_A8 && a[9] == FIRST_A9 && a[10] == FIRST_A10 && a[11] == FIRST_A11
    && a[12] == FIRST_A12 && a[13] == FIRST_A13 && a[14] == FIRST_A14
  }

  lemma FirstIsAHigh()
    ensures IsFirstAHigh(FIRST.a)
  {
  }

  predicate IsFirstBLow(b: seq<Row>) {
    && |b| == 16
    && b[0] == FIRST_B0 && b[1] == FIRST_B1 && b[2] == FIRST_B2 && b[3] == FIRST_B3
    && b[4] == FIRST_B4 && b[5] == FIRST_B5 && b[6] == FIRST_B6 && b[7] == FIRST_B7
  }

  lemma FirstIsBLow()
    ensures IsFirstBLow(FIRST.b)
  {
  }

  predicate IsFirstBHigh(b: seq<Row>) {
    && |b| == 16
    && b[8] == FIRST_B8 && b[9] == FIRST_B9 && b[10] == FIRST_B10 && b[11] == FIRST_B11
    && b[12] == FIRST_B12 && b[13] == FIRST_B13 && b[14] == FIRST_B14 && b[15] == FIRST_B15
  }

  lemma FirstIsBHigh()
    ensures IsFirstBHigh(FIRST.b)
  {
  }

  predicate IsFirst(t: Trace) { IsFirstALow(t.a) && IsFirstAHigh(t.a) && IsFirstBLow(t.b) && IsFirstBHigh(t.b) }

  lemma FirstIs()
    ensures IsFirst(FIRST)
  {
    hide IsFirstALow, IsFirstAHigh, IsFirstBLow, IsFirstBHigh;
    FirstIsALow();
    FirstIsAHigh();
    FirstIsBLow();
    FirstIsBHigh();
  }

  predicate IsSecondALow(a: seq<Row>) {
    && |a| == 15
    && a[0] == SECOND_A0 && a[1] == SECOND_A1 && a[2] == SECOND_A2 && a[3] == SECOND_A3
    && a[4] == SECOND_A4 && a[5] == SECOND_A5 && a[6] == SECOND_A6 && a[7] == SECOND_A7
  }

  lemma SecondIsALow()
    ensures IsSecondALow(SECOND.a)
  {
  }

  predicate IsSecondAHigh(a: seq<Row>) {
    && |a| == 15
    && a[8] == SECOND_A8 && a[9] == SECOND_A9 && a[10] == SECOND_A10 && a[11] == SECOND_A11
    && a[12] == SECOND_A12 && a[13] == SECOND_A13 && a[14] == SECOND_A14
  }

  lemma SecondIsAHigh()
    ensures IsSecondAHigh(SECOND.a)
  {
  }

  predicate IsSecondBLow(b: seq<Row>) {
    && |b| == 16
    && b[0] == SECOND_B0 && b[1] == SECOND_B1 && b[2] == SECOND_B2 && b[3] == SECOND_B3
    && b[4] == SECOND_B4 && b[5] == SECOND_B5 && b[6] == SECOND_B6 && b[7] == SECOND_B7
  }

  lemma SecondIsBLow()
    ensures IsSecondBLow(SECOND.b)
  {
  }

  predicate IsSecondBHigh(b: seq<Row>) {
    && |b| == 16
    && b[8] == SECOND_B8 && b[9] == SECOND_B9 && b[10] == SECOND_B10 && b[11] == SECOND_B11
    && b[12] == SECOND_B12 && b[13] == SECOND_B13 && b[14] == SECOND_B14 && b[15] == SECOND_B15
  }

  lemma SecondIsBHigh()
    ensures IsSecondBHigh(SECOND.b)
  {
  }

  predicate IsSecond(t: Trace) { IsSecondALow(t.a) && IsSecondAHigh(t.a) && IsSecondBLow(t.b) && IsSecondBHigh(t.b) }

  lemma SecondIs()
    ensures IsSecond(SECOND)
  {
    hide IsSecondALow, IsSecondAHigh, IsSecondBLow, IsSecondBHigh;
    SecondIsALow();
    SecondIsAHigh();
    SecondIsBLow();
    SecondIsBHigh();
  }

  /** The C words between the blocks. */
  predicate IsMiddleC(c: seq<Word>) {
    && |c| == 16
    && c[0] == FIRST_B12.w0 && c[1] == FIRST_B12.w1 && c[2] == FIRST_B12.w2 && c[3] == FIRST_B12.w3
    && c[4] == FIRST_B13.w0 && c[5] == FIRST_B13.w1 && c[6] == FIRST_B13.w2 && c[7] == FIRST_B13.w3
    && c[8] == FIRST_B14.w0 && c[9] == FIRST_B14.w1 && c[10] == FIRST_B14.w2 && c[11] == FIRST_B14.w3
    && c[12] == FIRST_B15.w0 && c[13] == FIRST_B15.w1 && c[14] == FIRST_B15.w2 && c[15] == FIRST_B15.w3
  }

  lemma MiddleCIs()
    ensures IsMiddleC(MIDDLE.c)
  {
    var rows := [FIRST_B12, FIRST_B13, FIRST_B14, FIRST_B15];
    hide RowOf;
    RowOfWords(rows, 0);
    RowOfWords(rows, 1);
    RowOfWords(rows, 2);
    RowOfWords(rows, 3);
    WordsOfRows(MIDDLE.c);
  }

  lemma WordsOfRows(s: seq<Word>)
    requires |s| == 16
    ensures RowOf(s, 0) == Row(s[0], s[1], s[2], s[3]) && RowOf(s, 1) == Row(s[4], s[5], s[6], s[7])
    ensures RowOf(s, 2) == Row(s[8], s[9], s[10], s[11]) && RowOf(s, 3) == Row(s[12], s[13], s[14], s[15])
  {
  }

  // The C words of the second block, in the order of the steps.
  const MIDDLE_C0: Row := Row(FIRST_B14.w0, FIRST_B13.w3, FIRST_B13.w2, FIRST_B13.w1)
  const MIDDLE_C1: Row := Row(FIRST_B13.w0, FIRST_B12.w3, FIRST_B12.w2, FIRST_B12.w1)
  const MIDDLE_C2: Row := Row(FIRST_B12.w0, FIRST_B15.w3, FIRST_B15.w2, FIRST_B15.w1)
  const MIDDLE_C3: Row := Row(FIRST_B15.w0, FIRST_B14.w3, FIRST_B14.w2, FIRST_B14.w1)

  lemma FirstRows0()
    ensures RowFollows(FIRST_A0, FIRST_A2, FIRST_A3, FIRST_B0, FIRST_B1, FIRST_B2, FIRST_B3, FIRST_B4,
                       ZEROS, FIRST_M0)
    ensures RowFollows(FIRST_A1, FIRST_A3, FIRST_A4, FIRST_B1, FIRST_B2, FIRST_B3, FIRST_B4, FIRST_B5,
                       ZEROS, FIRST_M1)
    ensures RowFollows(FIRST_A2, FIRST_A4, FIRST_A5, FIRST_B2, FIRST_B3, FIRST_B4, FIRST_B5, FIRST_B6,
                       ZEROS, FIRST_M2)
    ensures RowFollows(FIRST_A3, FIRST_A5, FIRST_A6, FIRST_B3, FIRST_B4, FIRST_B5, FIRST_B6, FIRST_B7,
                       ZEROS, FIRST_M3)
  {
  }

  lemma FirstRows4()
    ensures RowFollows(FIRST_A4, FIRST_A6, FIRST_A7, FIRST_B4, FIRST_B5, FIRST_B6, FIRST_B7, FIRST_B8,
                       ZEROS, FIRST_M0)
    ensures RowFollows(FIRST_A5, FIRST_A7, FIRST_A8, FIRST_B5, FIRST_B6, FIRST_B7, FIRST_B8, FIRST_B9,
                       ZEROS, FIRST_M1)
    ensures RowFollows(FIRST_A6, FIRST_A8, FIRST_A9, FIRST_B6, FIRST_B7, FIRST_B8, FIRST_B9, FIRST_B10,
                       ZEROS, FIRST_M2)
    ensures RowFollows(FIRST_A7, FIRST_A9, FIRST_A10, FIRST_B7, FIRST_B8, FIRST_B9, FIRST_B10, FIRST_B11,
                       ZEROS, FIRST_M3)
  {
  }

  lemma FirstRows8()
    ensures RowFollows(FIRST_A8, FIRST_A10, FIRST_A11, FIRST_B8, FIRST_B9, FIRST_B10, FIRST_B11, FIRST_B12,
                       ZEROS, FIRST_M0)
    ensures RowFollows(FIRST_A9, FIRST_A11, FIRST_A12, FIRST_B9, FIRST_B10, FIRST_B11, FIRST_B12, FIRST_B13,
                       ZEROS, FIRST_M1)
    ensures RowFollows(FIRST_A10, FIRST_A12, FIRST_A13, FIRST_B10, FIRST_B11, FIRST_B12, FIRST_B13, FIRST_B14,
                       ZEROS, FIRST_M2)
    ensures RowFollows(FIRST_A11, FIRST_A13, FIRST_A14, FIRST_B11, FIRST_B12, FIRST_B13, FIRST_B14, FIRST_B15,
                       ZEROS, FIRST_M3)
  {
  }

  lemma SecondRows0()
    ensures RowFollows(SECOND_A0, SECOND_A2, SECOND_A3, SECOND_B0, SECOND_B1, SECOND_B2, SECOND_B3, SECOND_B4,
                       MIDDLE_C0, SECOND_M0)
    ensures RowFollows(SECOND_A1, SECOND_A3, SECOND_A4, SECOND_B1, SECOND_B2, SECOND_B3, SECOND_B4, SECOND_B5,
                       MIDDLE_C1, SECOND_M1)
    ensures RowFollows(SECOND_A2, SECOND_A4, SECOND_A5, SECOND_B2, SECOND_B3, SECOND_B4, SECOND_B5, SECOND_B6,
                       MIDDLE_C2, SECOND_M2)
    ensures RowFollows(SECOND_A3, SECOND_A5, SECOND_A6, SECOND_B3, SECOND_B4, SECOND_B5, SECOND_B6, SECOND_B7,
                       MIDDLE_C3, SECOND_M3)
  {
  }

  lemma SecondRows4()
    ensures RowFollows(SECOND_A4, SECOND_A6, SECOND_A7, SECOND_B4, SECOND_B5, SECOND_B6, SECOND_B7, SECOND_B8,
                       MIDDLE_C0, SECOND_M0)
    ensures RowFollows(SECOND_A5, SECOND_A7, SECOND_A8, SECOND_B5, SECOND_B6, SECOND_B7, SECOND_B8, SECOND_B9,
                       MIDDLE_C1, SECOND_M1)
    ensures RowFollows(SECOND_A6, SECOND_A8, SECOND_A9, SECOND_B6, SECOND_B7, SECOND_B8, SECOND_B9, SECOND_B10,
                       MIDDLE_C2, SECOND_M2)
    ensures RowFollows(SECOND_A7, SECOND_A9, SECOND_A10, SECOND_B7, SECOND_B8, SECOND_B9, SECOND_B10, SECOND_B11,
                       MIDDLE_C3, SECOND_M3)
  {
  }

  lemma SecondRows8()
    ensures RowFollows(SECOND_A8, SECOND_A10, SECOND_A11, SECOND_B8, SECOND_B9, SECOND_B10, SECOND_B11, SECOND_B12,
                       MIDDLE_C0, SECOND_M0)
    ensures RowFollows(SECOND_A9, SECOND_A11, SECOND_A12, SECOND_B9, SECOND_B10, SECOND_B11, SECOND_B12, SECOND_B13,
                       MIDDLE_C1, SECOND_M1)
    ensures RowFollows(SECOND_A10, SECOND_A12, SECOND_A13, SECOND_B10, SECOND_B11, SECOND_B12, SECOND_B13, SECOND_B14,
                       MIDDLE_C2, SECOND_M2)
    ensures RowFollows(SECOND_A11, SECOND_A13, SECOND_A14, SECOND_B11, SECOND_B12, SECOND_B13, SECOND_B14, SECOND_B15,
                       MIDDLE_C3, SECOND_M3)
  {
  }

  predicate IsFirstM(m: seq<Word>) {
    |m| == 16 && RowOf(m, 0) == FIRST_M0 && RowOf(m, 1) == FIRST_M1 && RowOf(m, 2) == FIRST_M2 && RowOf(m, 3) == FIRST_M3
  }

  predicate IsSecondM(m: seq<Word>) {
    |m| == 16 && RowOf(m, 0) == SECOND_M0 && RowOf(m, 1) == SECOND_M1 && RowOf(m, 2) == SECOND_M2 && RowOf(m, 3) == SECOND_M3
  }

  predicate AllZero(c: seq<Word>) { |c| == 16 && forall i | 0 <= i < 16 :: c[i] == 0 }

  lemma ZeroRowC(c: seq<Word>, r: nat)
    requires AllZero(c)
    ensures RowC(c, r) == ZEROS
  {
    hide CIndex;
  }

  lemma MiddleRows0(c: seq<Word>)
    requires IsMiddleC(c)
    ensures RowC(c, 0) == MIDDLE_C0
    ensures RowC(c, 1) == MIDDLE_C1
    ensures RowC(c, 2) == MIDDLE_C2
    ensures RowC(c, 3) == MIDDLE_C3
  {
  }

  lemma MiddleRows4(c: seq<Word>)
    requires IsMiddleC(c)
    ensures RowC(c, 4) == MIDDLE_C0
    ensures RowC(c, 5) == MIDDLE_C1
    ensures RowC(c, 6) == MIDDLE_C2
    ensures RowC(c, 7) == MIDDLE_C3
  {
  }

  lemma MiddleRows8(c: seq<Word>)
    requires IsMiddleC(c)
    ensures RowC(c, 8) == MIDDLE_C0
    ensures RowC(c, 9) == MIDDLE_C1
    ensures RowC(c, 10) == MIDDLE_C2
    ensures RowC(c, 11) == MIDDLE_C3
  {
  }

  lemma FirstFollows0(t: Trace, c: seq<Word>, m: seq<Word>)
    requires IsFirst(t) && |c| == 16 && AllZero(c) && IsFirstM(m)
    ensures forall r | 0 <= r < 4 :: RowFollowsAt(t, c, m, r)
  {
    hide RowFollows, RowC, RowOf, AllZero;
    ZeroRowC(c, 0); ZeroRowC(c, 1); ZeroRowC(c, 2); ZeroRowC(c, 3);
    FirstRows0();
    assert RowFollowsAt(t, c, m, 0); assert RowFollowsAt(t, c, m, 1);
    assert RowFollowsAt(t, c, m, 2); assert RowFollowsAt(t, c, m, 3);
    hide RowFollowsAt;
  }

  lemma FirstFollows4(t: Trace, c: seq<Word>, m: seq<Word>)
    requires IsFirst(t) && |c| == 16 && AllZero(c) && IsFirstM(m)
    ensures forall r | 4 <= r < 8 :: RowFollowsAt(t, c, m, r)
  {
    hide RowFollows, RowC, RowOf, AllZero;
    ZeroRowC(c, 4); ZeroRowC(c, 5); ZeroRowC(c, 6); ZeroRowC(c, 7);
    FirstRows4();
    assert RowFollowsAt(t, c, m, 4); assert RowFollowsAt(t, c, m, 5);
    assert RowFollowsAt(t, c, m, 6); assert RowFollowsAt(t, c, m, 7);
    hide RowFollowsAt;
  }

  lemma FirstFollows8(t: Trace, c: seq<Word>, m: seq<Word>)
    requires IsFirst(t) && |c| == 16 && AllZero(c) && IsFirstM(m)
    ensures forall r | 8 <= r < 12 :: RowFollowsAt(t, c, m, r)
  {
    hide RowFollows, RowC, RowOf, AllZero;
    ZeroRowC(c, 8); ZeroRowC(c, 9); ZeroRowC(c, 10); ZeroRowC(c, 11);
    FirstRows8();
    assert RowFollowsAt(t, c, m, 8); assert RowFollowsAt(t, c, m, 9);
    assert RowFollowsAt(t, c, m, 10); assert RowFollowsAt(t, c, m, 11);
    hide RowFollowsAt;
  }

  lemma SecondFollows0(t: Trace, c: seq<Word>, m: seq<Word>)
    requires IsSecond(t) && |c| == 16 && IsMiddleC(c) && IsSecondM(m)
    ensures forall r | 0 <= r < 4 :: RowFollowsAt(t, c, m, r)
  {
    hide RowFollows, RowC, RowOf, IsMiddleC;
    MiddleRows0(c);
    SecondRows0();
    assert RowFollowsAt(t, c, m, 0); assert RowFollowsAt(t, c, m, 1);
    assert RowFollowsAt(t, c, m, 2); assert RowFollowsAt(t, c, m, 3);
    hide RowFollowsAt;
  }

  lemma SecondFollows4(t: Trace, c: seq<Word>, m: seq<Word>)
    requires IsSecond(t) && |c| == 16 && IsMiddleC(c) && IsSecondM(m)
    ensures forall r | 4 <= r < 8 :: RowFollowsAt(t, c, m, r)
  {
    hide RowFollows, RowC, RowOf, IsMiddleC;
    MiddleRows4(c);
    SecondRows4();
    assert RowFollowsAt(t, c, m, 4); assert RowFollowsAt(t, c, m, 5);
    assert RowFollowsAt(t, c, m, 6); assert RowFollowsAt(t, c, m, 7);
    hide RowFollowsAt;
  }

  lemma SecondFollows8(t: Trace, c: seq<Word>, m: seq<Word>)
    requires IsSecond(t) && |c| == 16 && IsMiddleC(c) && IsSecondM(m)
    ensures forall r | 8 <= r < 12 :: RowFollowsAt(t, c, m, r)
  {
    hide RowFollows, RowC, RowOf, IsMiddleC;
    MiddleRows8(c);
    SecondRows8();
    assert RowFollowsAt(t, c, m, 8); assert RowFollowsAt(t, c, m, 9);
    assert RowFollowsAt(t, c, m, 10); assert RowFollowsAt(t, c, m, 11);
    hide RowFollowsAt;
  }

  lemma InitWordIs(x: nat, i: nat)
    requires i < 16
    ensures BlockWords(InitBlock(x))[i] == WordOf(LowByte(x + i), LowByte((x + i) / 256), 0, 0)
  {
    hide WordOf, LowByte;
    assert InitByte(x, 4 * i) == LowByte(x + i) && InitByte(x, 4 * i + 1) == LowByte((x + i) / 256);
    assert InitByte(x, 4 * i + 2) == 0 && InitByte(x, 4 * i + 3) == 0;
  }

  lemma LowByteIs(high: nat, low: nat, b: Byte)
    requires low < 256 && b == low as Byte
    ensures LowByte(256 * high + low) == b
  {
    assert (256 * high + low) % 256 == low;
  }

  lemma FirstBytes0()
    ensures WordOf(LowByte(256), LowByte(1), 0, 0) == FIRST_M0.w0
    ensures WordOf(LowByte(257), LowByte(1), 0, 0) == FIRST_M0.w1
    ensures WordOf(LowByte(258), LowByte(1), 0, 0) == FIRST_M0.w2
    ensures WordOf(LowByte(259), LowByte(1), 0, 0) == FIRST_M0.w3
    ensures WordOf(LowByte(260), LowByte(1), 0, 0) == FIRST_M1.w0
    ensures WordOf(LowByte(261), LowByte(1), 0, 0) == FIRST_M1.w1
    ensures WordOf(LowByte(262), LowByte(1), 0, 0) == FIRST_M1.w2
    ensures WordOf(LowByte(263), LowByte(1), 0, 0) == FIRST_M1.w3
  {
    LowByteIs(0, 1, 1);
    LowByteIs(1, 0, 0); LowByteIs(1, 1, 1); LowByteIs(1, 2, 2); LowByteIs(1, 3, 3);
    LowByteIs(1, 4, 4); LowByteIs(1, 5, 5); LowByteIs(1, 6, 6); LowByteIs(1, 7, 7);
  }

  lemma FirstBytes8()
    ensures WordOf(LowByte(264), LowByte(1), 0, 0) == FIRST_M2.w0
    ensures WordOf(LowByte(265), LowByte(1), 0, 0) == FIRST_M2.w1
    ensures WordOf(LowByte(266), LowByte(1), 0, 0) == FIRST_M2.w2
    ensures WordOf(LowByte(267), LowByte(1), 0, 0) == FIRST_M2.w3
    ensures WordOf(LowByte(268), LowByte(1), 0, 0) == FIRST_M3.w0
    ensures WordOf(LowByte(269), LowByte(1), 0, 0) == FIRST_M3.w1
    ensures WordOf(LowByte(270), LowByte(1), 0, 0) == FIRST_M3.w2
    ensures WordOf(LowByte(271), LowByte(1), 0, 0) == FIRST_M3.w3
  {
    LowByteIs(0, 1, 1);
    LowByteIs(1, 8, 8); LowByteIs(1, 9, 9); LowByteIs(1, 10, 10); LowByteIs(1, 11, 11);
    LowByteIs(1, 12, 12); LowByteIs(1, 13, 13); LowByteIs(1, 14, 14); LowByteIs(1, 15, 15);
  }

  lemma FirstMIs()
    ensures IsFirstM(BlockWords(InitBlock(256)))
  {
    hide WordOf, LowByte, BlockWords, InitBlock;
    var m := BlockWords(InitBlock(256));
    FirstBytes0();
    FirstBytes8();
    forall i | 0 <= i < 16 ensures m[i] == WordOf(LowByte(256 + i), LowByte((256 + i) / 256), 0, 0) {
      InitWordIs(256, i);
    }
  }

  lemma SecondBytes0()
    ensures WordOf(LowByte(272), LowByte(1), 0, 0) == SECOND_M0.w0
    ensures WordOf(LowByte(273), LowByte(1), 0, 0) == SECOND_M0.w1
    ensures WordOf(LowByte(274), LowByte(1), 0, 0) == SECOND_M0.w2
    ensures WordOf(LowByte(275), LowByte(1), 0, 0) == SECOND_M0.w3
    ensures WordOf(LowByte(276), LowByte(1), 0, 0) == SECOND_M1.w0
    ensures WordOf(LowByte(277), LowByte(1), 0, 0) == SECOND_M1.w1
    ensures WordOf(LowByte(278), LowByte(1), 0, 0) == SECOND_M1.w2
    ensures WordOf(LowByte(279), LowByte(1), 0, 0) == SECOND_M1.w3
  {
    LowByteIs(0, 1, 1);
    LowByteIs(1, 16, 16); LowByteIs(1, 17, 17); LowByteIs(1, 18, 18); LowByteIs(1, 19, 19);
    LowByteIs(1, 20, 20); LowByteIs(1, 21, 21); LowByteIs(1, 22, 22); LowByteIs(1, 23, 23);
  }

  lemma SecondBytes8()
    ensures WordOf(LowByte(280), LowByte(1), 0, 0) == SECOND_M2.w0
    ensures WordOf(LowByte(281), LowByte(1), 0, 0) == SECOND_M2.w1
    ensures WordOf(LowByte(282), LowByte(1), 0, 0) == SECOND_M2.w2
    ensures WordOf(LowByte(283), LowByte(1), 0, 0) == SECOND_M2.w3
    ensures WordOf(LowByte(284), LowByte(1), 0, 0) == SECOND_M3.w0
    ensures WordOf(LowByte(285), LowByte(1), 0, 0) == SECOND_M3.w1
    ensures WordOf(LowByte(286), LowByte(1), 0, 0) == SECOND_M3.w2
    ensures WordOf(LowByte(287), LowByte(1), 0, 0) == SECOND_M3.w3
  {
    LowByteIs(0, 1, 1);
    LowByteIs(1, 24, 24); LowByteIs(1, 25, 25); LowByteIs(1, 26, 26); LowByteIs(1, 27, 27);
    LowByteIs(1, 28, 28); LowByteIs(1, 29, 29); LowByteIs(1, 30, 30); LowByteIs(1, 31, 31);
  }

  lemma SecondMIs()
    ensures IsSecondM(BlockWords(InitBlock(272)))
  {
    hide WordOf, LowByte, BlockWords, InitBlock;
    var m := BlockWords(InitBlock(272));
    SecondBytes0();
    SecondBytes8();
    forall i | 0 <= i < 16 ensures m[i] == WordOf(LowByte(272 + i), LowByte((272 + i) / 256), 0, 0) {
      InitWordIs(272, i);
    }
  }

  // ----- The certificates -----

  function LoadRow(b: Row, m: Row): Row {
    Row(LoadWord(b.w0, m.w0), LoadWord(b.w1, m.w1), LoadWord(b.w2, m.w2), LoadWord(b.w3, m.w3))
  }

  function SubRow(c: Row, m: Row): Row { Row(Sub(c.w0, m.w0), Sub(c.w1, m.w1), Sub(c.w2, m.w2), Sub(c.w3, m.w3)) }

  lemma RowsOfBlock(b: seq<Word>, m: seq<Word>, q: nat)
    requires |b| == |m| == 16 && q < 4
    ensures RowOf(LoadB(b, m), q) == LoadRow(RowOf(b, q), RowOf(m, q))
    ensures RowOf(SubM(b, m), q) == SubRow(RowOf(b, q), RowOf(m, q))
  {
    hide LoadWord, Sub;
  }

  lemma FirstLoadRows()
    ensures LoadRow(ZEROS, FIRST_M0) == FIRST_B0 && LoadRow(ZEROS, FIRST_M1) == FIRST_B1
    ensures LoadRow(ZEROS, FIRST_M2) == FIRST_B2 && LoadRow(ZEROS, FIRST_M3) == FIRST_B3
  {
  }

  lemma SecondLoadRows()
    ensures LoadRow(SubRow(ZEROS, FIRST_M0), SECOND_M0) == SECOND_B0
    ensures LoadRow(SubRow(ZEROS, FIRST_M1), SECOND_M1) == SECOND_B1
    ensures LoadRow(SubRow(ZEROS, FIRST_M2), SECOND_M2) == SECOND_B2
    ensures LoadRow(SubRow(ZEROS, FIRST_M3), SECOND_M3) == SECOND_B3
  {
  }

  lemma LastSubRows()
    ensures SubRow(FIRST_B12, SECOND_M0) == TABLE_3 && SubRow(FIRST_B13, SECOND_M1) == TABLE_4
    ensures SubRow(FIRST_B14, SECOND_M2) == TABLE_5 && SubRow(FIRST_B15, SECOND_M3) == TABLE_6
  {
  }

  const SUMS0: Row :=
    Row(Add(Add(FIRST_B14.w3, FIRST_B15.w3), FIRST_B12.w3),
        Add(Add(FIRST_B15.w0, FIRST_B12.w0), FIRST_B13.w0),
        Add(Add(FIRST_B15.w1, FIRST_B12.w1), FIRST_B13.w1),
        Add(Add(FIRST_B15.w2, FIRST_B12.w2), FIRST_B13.w2))

  const SUMS1: Row :=
    Row(Add(Add(FIRST_B15.w3, FIRST_B12.w3), FIRST_B13.w3),
        Add(Add(FIRST_B12.w0, FIRST_B13.w0), FIRST_B14.w0),
        Add(Add(FIRST_B12.w1, FIRST_B13.w1), FIRST_B14.w1),
        Add(Add(FIRST_B12.w2, FIRST_B13.w2), FIRST_B14.w2))

  const SUMS2: Row :=
    Row(Add(Add(FIRST_B12.w3, FIRST_B13.w3), FIRST_B14.w3),
        Add(Add(FIRST_B13.w0, FIRST_B14.w0), FIRST_B15.w0),
        Add(Add(FIRST_B13.w1, FIRST_B14.w1), FIRST_B15.w1),
        Add(Add(FIRST_B13.w2, FIRST_B14.w2), FIRST_B15.w2))

  lemma LastAddRows()
    ensures AddRow(SECOND_A12, SUMS0) == TABLE_0 && AddRow(SECOND_A13, SUMS1) == TABLE_1
    ensures AddRow(SECOND_A14, SUMS2) == TABLE_2
  {
  }

  lemma MiddleSums0(c: seq<Word>)
    requires IsMiddleC(c)
    ensures SumRow(c, 0) == SUMS0
  {
    hide Add;
  }

  lemma MiddleSums1(c: seq<Word>)
    requires IsMiddleC(c)
    ensures SumRow(c, 1) == SUMS1
  {
    hide Add;
  }

  lemma MiddleSums2(c: seq<Word>)
    requires IsMiddleC(c)
    ensures SumRow(c, 2) == SUMS2
  {
    hide Add;
  }

  lemma NothingAdded(r: Row, c: seq<Word>, q: nat)
    requires AllZero(c) && q < 3
    ensures AddRow(r, SumRow(c, q)) == r
  {
    assert forall x :: Add(x, 0) == x;
    hide Add;
  }

  lemma XorZeros(a: seq<Word>)
    requires |a| == 12
    ensures XorW(a, Counter(0, 0)) == a
  {
    assert forall x :: Xor(x, 0) == x;
    hide Xor;
  }

// The states of the certificates, row by row.

  predicate RowsA(a: seq<Word>, r0: Row, r1: Row, r2: Row) {
    |a| == 12 && RowOf(a, 0) == r0 && RowOf(a, 1) == r1 && RowOf(a, 2) == r2
  }

  predicate RowsB(b: seq<Word>, r0: Row, r1: Row, r2: Row, r3: Row) {
    |b| == 16 && RowOf(b, 0) == r0 && RowOf(b, 1) == r1 && RowOf(b, 2) == r2 && RowOf(b, 3) == r3
  }

  lemma WordsRowsA(r0: Row, r1: Row, r2: Row)
    ensures RowsA(Words([r0, r1, r2]), r0, r1, r2)
  {
    hide RowOf, Words;
    RowOfWords([r0, r1, r2], 0);
    RowOfWords([r0, r1, r2], 1);
    RowOfWords([r0, r1, r2], 2);
  }

  lemma WordsRowsB(r0: Row, r1: Row, r2: Row, r3: Row)
    ensures RowsB(Words([r0, r1, r2, r3]), r0, r1, r2, r3)
  {
    hide RowOf, Words;
    RowOfWords([r0, r1, r2, r3], 0);
    RowOfWords([r0, r1, r2, r3], 1);
    RowOfWords([r0, r1, r2, r3], 2);
    RowOfWords([r0, r1, r2, r3], 3);
  }

  lemma FirstStarts(a: seq<Word>)
    requires |a| == 12 && forall i | 0 <= i < 12 :: a[i] == 0
    ensures RowsA(XorW(a, Counter(ONES, ONES)), FIRST_A0, FIRST_A1, FIRST_A2)
  {
    assert Xor(0, ONES) == 0xFFFFFFFF;
    hide Xor;
  }

  lemma FirstLoads(b: seq<Word>, m: seq<Word>)
    requires RowsB(b, ZEROS, ZEROS, ZEROS, ZEROS) && IsFirstM(m)
    ensures RowsB(LoadB(b, m), FIRST_B0, FIRST_B1, FIRST_B2, FIRST_B3)
  {
    hide LoadRow, SubRow, RowOf, LoadB, SubM;
    FirstLoadRows();
    RowsOfBlock(b, m, 0); RowsOfBlock(b, m, 1); RowsOfBlock(b, m, 2); RowsOfBlock(b, m, 3);
  }

  lemma FirstSubs(c: seq<Word>, m: seq<Word>)
    requires RowsB(c, ZEROS, ZEROS, ZEROS, ZEROS) && IsFirstM(m)
    ensures RowsB(SubM(c, m), SubRow(ZEROS, FIRST_M0), SubRow(ZEROS, FIRST_M1), SubRow(ZEROS, FIRST_M2), SubRow(ZEROS, FIRST_M3))
  {
    hide LoadRow, SubRow, RowOf, LoadB, SubM;
    RowsOfBlock(c, m, 0); RowsOfBlock(c, m, 1); RowsOfBlock(c, m, 2); RowsOfBlock(c, m, 3);
  }

  lemma SecondLoads(b: seq<Word>, m: seq<Word>)
    requires RowsB(b, SubRow(ZEROS, FIRST_M0), SubRow(ZEROS, FIRST_M1), SubRow(ZEROS, FIRST_M2), SubRow(ZEROS, FIRST_M3))
    requires IsSecondM(m)
    ensures RowsB(LoadB(b, m), SECOND_B0, SECOND_B1, SECOND_B2, SECOND_B3)
  {
    hide LoadRow, SubRow, RowOf, LoadB, SubM;
    SecondLoadRows();
    RowsOfBlock(b, m, 0); RowsOfBlock(b, m, 1); RowsOfBlock(b, m, 2); RowsOfBlock(b, m, 3);
  }

  lemma LastSubs(c: seq<Word>, m: seq<Word>)
    requires RowsB(c, FIRST_B12, FIRST_B13, FIRST_B14, FIRST_B15) && IsSecondM(m)
    ensures RowsB(SubM(c, m), TABLE_3, TABLE_4, TABLE_5, TABLE_6)
  {
    hide LoadRow, SubRow, RowOf, LoadB, SubM;
    LastSubRows();
    RowsOfBlock(c, m, 0); RowsOfBlock(c, m, 1); RowsOfBlock(c, m, 2); RowsOfBlock(c, m, 3);
  }

  lemma FirstCertified(t: Trace, s: Core, m: seq<Word>, s': Core)
    requires IsFirst(t) && IsFirstM(m) && IsCore(s) && AllZero(s.c) && IsCore(s') && s'.b == SubM(s.c, m)
    requires RowsA(XorW(s.a, Counter(ONES, ONES)), FIRST_A0, FIRST_A1, FIRST_A2)
    requires RowsB(LoadB(s.b, m), FIRST_B0, FIRST_B1, FIRST_B2, FIRST_B3)
    requires RowsA(s'.a, FIRST_A12, FIRST_A13, FIRST_A14) && RowsB(s'.c, FIRST_B12, FIRST_B13, FIRST_B14, FIRST_B15)
    ensures Certifies(t, s, m, Counter(ONES, ONES), s')
  {
    hide RowFollowsAt, XorW, LoadB, SubM, AddRow, SumRow, RowOf, AllZero;
    FirstFollows0(t, s.c, m);
    FirstFollows4(t, s.c, m);
    FirstFollows8(t, s.c, m);
    NothingAdded(t.a[12], s.c, 0);
    NothingAdded(t.a[13], s.c, 1);
    NothingAdded(t.a[14], s.c, 2);
  }

  lemma SecondCertified(t: Trace, s: Core, m: seq<Word>, s': Core)
    requires IsSecond(t) && IsSecondM(m) && IsCore(s) && IsMiddleC(s.c) && IsCore(s')
    requires RowsA(s.a, FIRST_A12, FIRST_A13, FIRST_A14)
    requires RowsB(s.b, SubRow(ZEROS, FIRST_M0), SubRow(ZEROS, FIRST_M1), SubRow(ZEROS, FIRST_M2), SubRow(ZEROS, FIRST_M3))
    requires RowsB(s.c, FIRST_B12, FIRST_B13, FIRST_B14, FIRST_B15)
    requires RowsA(s'.a, TABLE_0, TABLE_1, TABLE_2) && RowsB(s'.b, TABLE_3, TABLE_4, TABLE_5, TABLE_6)
    requires RowsB(s'.c, TABLE_7, TABLE_8, TABLE_9, TABLE_10)
    ensures Certifies(t, s, m, Counter(0, 0), s')
  {
    hide RowFollowsAt, XorW, LoadB, SubM, AddRow, SumRow, RowOf, SubRow, IsMiddleC;
    XorZeros(s.a);
    SecondLoads(s.b, m);
    SecondFollows0(t, s.c, m);
    SecondFollows4(t, s.c, m);
    SecondFollows8(t, s.c, m);
    LastAddRows();
    MiddleSums0(s.c);
    MiddleSums1(s.c);
    MiddleSums2(s.c);
    LastSubs(s.c, m);
  }

  lemma ZeroRows()
    ensures RowsB(Zero().b, ZEROS, ZEROS, ZEROS, ZEROS) && RowsB(Zero().c, ZEROS, ZEROS, ZEROS, ZEROS)
  {
  }

  /** The table is the state that the other implementations compute from the two initial blocks. */
  lemma TableIsInitialState()
    ensures TABLE == InitCore(256)
  {
    hide Compress, Certifies, BlockWords, InitBlock, RowsA, RowsB, SubM, XorW, LoadB, Words, IsFirst, IsSecond;
    var m0, m1 := BlockWords(InitBlock(256)), BlockWords(InitBlock(272));
    FirstIs();
    SecondIs();
    FirstMIs();
    SecondMIs();
    ZeroRows();
    FirstStarts(Zero().a);
    FirstLoads(Zero().b, m0);
    WordsRowsA(FIRST_A12, FIRST_A13, FIRST_A14);
    WordsRowsB(FIRST_B12, FIRST_B13, FIRST_B14, FIRST_B15);
    WordsRowsA(TABLE_0, TABLE_1, TABLE_2);
    WordsRowsB(TABLE_3, TABLE_4, TABLE_5, TABLE_6);
    WordsRowsB(TABLE_7, TABLE_8, TABLE_9, TABLE_10);
    MiddleCIs();
    FirstCertified(FIRST, Zero(), m0, MIDDLE);
    FirstSubs(Zero().c, m0);
    SecondCertified(SECOND, MIDDLE, m1, TABLE);
    CertifiedCompression(FIRST, Zero(), m0, Counter(ONES, ONES), MIDDLE);
    CertifiedCompression(SECOND, MIDDLE, m1, Counter(0, 0), TABLE);
  }
}
