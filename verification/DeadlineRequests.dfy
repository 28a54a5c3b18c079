module DeadlineRequests {
  /* The batcher of src/DeadlineRequestHandler.cpp: requests are collected into batches, and a batch
     is validated with one call that computes all its deadlines. */

  import opened BurstMath
  import opened Options
  import opened ShabalHash

  /** PARALLEL_VALIDATIONS: without USE_AVX2 four, with it eight. */
  predicate IsWidth(n: nat) { n == 4 || n == 8 }

  const PATIENCE: nat := 50

  /** CalcDeadlineReq: the request, and the height that picks the PoC version. */
  datatype CalcReq = CalcReq(request: Request, height: nat)

  /** What is posted to the thread pool. */
  datatype Batch = Batch(reqs: seq<CalcReq>, pending: nat)

  ghost predicate IsBatch(b: Batch) { IsWidth(|b.reqs|) && 1 <= b.pending <= |b.reqs| }

  /** The requests that are validated: of each batch, the entries before `pending`. */
  ghost function Live(posted: seq<Batch>): seq<CalcReq>
    requires forall b <- posted :: IsBatch(b)
  {
    if posted == [] then []
    else
      var last := posted[|posted| - 1];
      assert IsBatch(last);
      Live(posted[..|posted| - 1]) + last.reqs[..last.pending]
  }

  /** The requests among the results of try_dequeue. */
  ghost function Found(results: seq<Option<CalcReq>>): seq<CalcReq> {
    if results == [] then []
    else Found(results[..|results| - 1]) + match results[|results| - 1] case None => [] case Some(r) => [r]
  }

  /** Every entry, live, stale or padding, is the padding request or one that was found. */
  ghost predicate AllKnown(entries: seq<CalcReq>, padding: CalcReq, found: seq<CalcReq>) {
    forall i | 0 <= i < |entries| :: entries[i] == padding || entries[i] in found
  }

  lemma KnownMore(entries: seq<CalcReq>, padding: CalcReq, found: seq<CalcReq>, more: seq<CalcReq>)
    requires AllKnown(entries, padding, found)
    ensures AllKnown(entries, padding, found + more)
  {
  }

  class Distributor {
    const parallel: nat
    ghost const padding: CalcReq
    const reqs: array<CalcReq>
    var pending: nat
    var waited: nat
    ghost var posted: seq<Batch>
    ghost var results: seq<Option<CalcReq>>

    ghost predicate Valid()
      reads this, reqs
    {
      ValidBut([])
    }

    /** The array starts full of padding requests. */
    constructor (parallel: nat, padding: CalcReq)
      requires IsWidth(parallel)
      ensures Valid() && fresh(reqs) && pending == waited == 0 && posted == [] && results == []
      ensures this.parallel == parallel && this.padding == padding && reqs[..] == seq(parallel, _ => padding)
    {
      this.parallel, this.padding := parallel, padding;
      reqs := new CalcReq[parallel](_ => padding);
      pending, waited, posted, results := 0, 0, [], [];
    }

    ghost predicate Posts()
      reads this
    {
      pending == parallel || (pending > 0 && waited > 50)
    }

    /** Where the next request found is put. */
    ghost function Next(): nat
      reads this
    {
      if Posts() then 0 else pending
    }

    /** One round of the loop; `result` is what try_dequeue finds.  No request is lost, repeated or
        overtaken: the live entries posted so far and the ones still collected are the requests
        found, in order. */
    method Round(result: Option<CalcReq>)
      requires Valid()
      modifies this, reqs
      ensures Valid() && results == old(results) + [result]
      ensures posted == if old(Posts()) then old(posted) + [Batch(old(reqs[..]), old(pending))] else old(posted)
      ensures waited == (if old(Posts()) then 0 else old(waited)) + (if result.None? then 1 else 0)
      ensures pending == old(Next()) + (if result.None? then 0 else 1) && old(Next()) < parallel
      ensures reqs[..] == if result.None? then old(reqs[..]) else old(reqs[..])[old(Next()) := result.value]
    {
      hide Live, Found;
      if pending == parallel || (pending > 0 && waited > PATIENCE) { Post(); }
      Note(result);
      if result.None? {
        waited := waited + 1;
        return;
      }
      Collect(result.value);
    }

    /** The batch is posted, with whatever the later entries hold. */
    method Post()
      requires Valid() && pending > 0
      modifies this`posted, this`pending, this`waited
      ensures Valid() && posted == old(posted) + [Batch(reqs[..], old(pending))] && pending == waited == 0
    {
      ghost var batch := Batch(reqs[..], pending);
      assert (posted + [batch])[..|posted|] == posted;
      assert batch.reqs[..batch.pending] == reqs[..pending];
      posted := posted + [batch];
      pending, waited := 0, 0;
      assert reqs[..pending] == [];
    }

    /** History: what try_dequeue found.  The request found is not yet among the entries. */
    ghost method Note(result: Option<CalcReq>)
      requires Valid()
      modifies this`results
      ensures results == old(results) + [result] && (result.None? ==> Valid())
              && ValidBut(if result.None? then [] else [result.value])
    {
      hide Live, Found, AllKnown;
      ghost var more := match result case None => [] case Some(r) => [r];
      FoundMore(results, result);
      KnownMore(reqs[..], padding, Found(results), more);
      forall b <- posted ensures AllKnown(b.reqs, padding, Found(results) + more) {
        KnownMore(b.reqs, padding, Found(results), more);
      }
      assert Live(posted) + reqs[..pending] + [] == Live(posted) + reqs[..pending];
      results := results + [result];
      assert Live(posted) + reqs[..pending] + more == Found(results);
    }

    /** Valid, but for the requests `late` that are found and not yet among the entries. */
    ghost predicate ValidBut(late: seq<CalcReq>)
      reads this, reqs
    {
      && IsWidth(parallel) && reqs.Length == parallel && pending <= parallel
      && (forall b <- posted :: IsBatch(b) && |b.reqs| == parallel)
      && Live(posted) + reqs[..pending] + late == Found(results)
      && AllKnown(reqs[..], padding, Found(results)) && forall b <- posted :: AllKnown(b.reqs, padding, Found(results))
    }

    /** Into the next entry. */
    method Collect(r: CalcReq)
      requires ValidBut([r]) && pending < parallel
      modifies this`pending, reqs
      ensures Valid() && pending == old(pending) + 1 && reqs[..] == old(reqs[..])[old(pending) := r]
    {
      ghost var kept := reqs[..pending];
      reqs[pending] := r;
      assert reqs[..pending + 1] == kept + [r];
      assert Live(posted) + reqs[..pending + 1] == Live(posted) + kept + [r];
      pending := pending + 1;
    }

    /** Any run of the loop. */
    method Run(outcomes: seq<Option<CalcReq>>)
      requires Valid() && results == []
      modifies this, reqs
      ensures Valid() && results == outcomes
    {
      var i := 0;
      while i < |outcomes|
        invariant 0 <= i <= |outcomes| && Valid() && results == outcomes[..i]
      {
        Round(outcomes[i]);
        i := i + 1;
      }
      assert outcomes[..|outcomes|] == outcomes;
    }
  }

  lemma FoundMore(results: seq<Option<CalcReq>>, result: Option<CalcReq>)
    ensures Found(results + [result]) == Found(results) + match result case None => [] case Some(r) => [r]
  {
    assert (results + [result])[..|results|] == results;
  }

  lemma {:induction false} LiveHas(posted: seq<Batch>, b: Batch, i: nat)
    requires (forall b <- posted :: IsBatch(b)) && b in posted && i < b.pending <= |b.reqs|
    ensures b.reqs[i] in Live(posted)
  {
    var last := posted[|posted| - 1];
    if b == last { assert b.reqs[..b.pending][i] == b.reqs[i]; } else { LiveHas(posted[..|posted| - 1], b, i); }
  }

  // ----- Validating a batch -----

  /** What validating a batch needs: every lane can be computed, and the live ones properly. */
  ghost predicate IsReady(b: Batch) {
    && IsBatch(b) && (forall i | 0 <= i < |b.reqs| :: IsLane(b.reqs[i].request))
    && forall i | 0 <= i < b.pending :: IsRequest(b.reqs[i].request)
  }

  /** Every batch the loop posts is ready, partly filled first batches included, if all requests found
      are proper ones; of the padding's scoop number nothing is asked. */
  lemma PostedIsReady(d: Distributor, b: Batch)
    requires d.Valid() && b in d.posted
    requires IsLane(d.padding.request) && forall c <- Found(d.results) :: IsRequest(c.request)
    ensures IsReady(b)
  {
    hide IsRequest;
    forall i | 0 <= i < |b.reqs| ensures IsLane(b.reqs[i].request) && (i < b.pending ==> IsRequest(b.reqs[i].request)) {
      assert b.reqs[i] == d.padding || b.reqs[i] in Found(d.results);
      RequestIsLane(b.reqs[i].request);
      if i < b.pending {
        LiveHas(d.posted, b, i);
        assert b.reqs[i] in Live(d.posted) + d.reqs[..d.pending];
      }
    }
  }

  lemma RequestIsLane(r: Request)
    ensures IsRequest(r) ==> IsLane(r)
  {
  }

  /** Whether a request is to be computed by PoC2. */
  predicate OnPoC2(r: CalcReq, poc2StartHeight: nat) { r.height >= poc2StartHeight }

  /** The live requests lie on one side of the PoC2 height. */
  ghost predicate OneSided(b: Batch, poc2StartHeight: nat)
    requires IsBatch(b)
  {
    forall i | 0 <= i < b.pending :: OnPoC2(b.reqs[i], poc2StartHeight) == OnPoC2(b.reqs[0], poc2StartHeight)
  }

  /** validate_deadlines up to the calls of validate_deadline: lane 0 picks the PoC version of all, so
      each request gets its own deadline if the batch is one-sided. */
  method BatchDeadlines(b: Batch, poc2StartHeight: nat) returns (deadlines: seq<nat>)
    requires IsReady(b)
    ensures |deadlines| == b.pending
    ensures b.reqs[0].height >= poc2StartHeight ==> forall i | 0 <= i < b.pending :: PoC2Deadline(b.reqs[i].request, deadlines[i])
    ensures b.reqs[0].height < poc2StartHeight ==> forall i | 0 <= i < b.pending :: PoC1Deadline(b.reqs[i].request, deadlines[i])
    ensures forall i | 0 <= i < b.pending :: deadlines[i] == Deadline(b.reqs[i].request, OnPoC2(b.reqs[0], poc2StartHeight))
    ensures OneSided(b, poc2StartHeight) ==>
              forall i | 0 <= i < b.pending :: deadlines[i] == Deadline(b.reqs[i].request, OnPoC2(b.reqs[i], poc2StartHeight))
  {
    hide Deadline, IsLane, PoC1Deadline, PoC2Deadline;
    var requests := seq(|b.reqs|, i requires 0 <= i < |b.reqs| => b.reqs[i].request);
    var all;
    if |b.reqs| == 4 {
      all := CalculateDeadlinesSse4(OnPoC2(b.reqs[0], poc2StartHeight), requests);
    } else {
      all := CalculateDeadlinesAvx2(OnPoC2(b.reqs[0], poc2StartHeight), requests);
    }
    deadlines := all[..b.pending];
  }

  /** From the plot, entry i's deadline is computed from the bytes that its own height asks for. */
  ghost predicate ReadsOwn(b: Batch, poc2StartHeight: nat, plot: seq<Byte>, i: nat)
    requires IsReady(b) && i < b.pending && |plot| == NONCE_SIZE
  {
    var nr := b.reqs[i].request.scoop;
    ScoopFor(plot, nr, OnPoC2(b.reqs[0], poc2StartHeight)) == ScoopFor(plot, nr, OnPoC2(b.reqs[i], poc2StartHeight))
  }

  /** If so, the deadline is the one it would get alone. */
  lemma OwnBytesOwnDeadline(b: Batch, poc2StartHeight: nat, i: nat)
    requires IsReady(b) && i < b.pending
    requires var r := b.reqs[i].request; ReadsOwn(b, poc2StartHeight, Plot(Seed(r.addr, r.nonce)), i)
    ensures var r := b.reqs[i].request;
            Deadline(r, OnPoC2(b.reqs[0], poc2StartHeight)) == Deadline(r, OnPoC2(b.reqs[i], poc2StartHeight))
  {
    hide Plot, Seed, ScoopFor, HashWords, Target, Quotient;
  }

  /** Plot by plot: entry i is computed from its own bytes exactly when it is on the side of the first
      one, or the two versions of its scoop happen to be the same. */
  lemma ReadsOwnWhen(b: Batch, poc2StartHeight: nat, plot: seq<Byte>, i: nat)
    requires IsReady(b) && i < b.pending && |plot| == NONCE_SIZE
    ensures var nr := b.reqs[i].request.scoop; var mirror := NUM_SCOOPS - 1 - nr;
            ReadsOwn(b, poc2StartHeight, plot, i) <==>
              || OnPoC2(b.reqs[i], poc2StartHeight) == OnPoC2(b.reqs[0], poc2StartHeight)
              || plot[nr * SCOOP_SIZE + 32..nr * SCOOP_SIZE + 64] == plot[mirror * SCOOP_SIZE + 32..mirror * SCOOP_SIZE + 64]
  {
    hide ScoopFor;
    VersionsAgree(plot, b.reqs[i].request.scoop);
  }

  /** On all plots: batching computes every live entry from its own bytes exactly for one-sided
      batches.  In a batch that straddles the PoC2 height some entry is computed from the wrong ones. */
  lemma BatchingIsRight(b: Batch, poc2StartHeight: nat)
    requires IsReady(b)
    ensures OneSided(b, poc2StartHeight) <==>
              forall plot: seq<Byte>, i: nat | |plot| == NONCE_SIZE && i < b.pending :: ReadsOwn(b, poc2StartHeight, plot, i)
  {
    hide ScoopFor;
    if !OneSided(b, poc2StartHeight) {
      var i: nat :| i < b.pending && OnPoC2(b.reqs[i], poc2StartHeight) != OnPoC2(b.reqs[0], poc2StartHeight);
      WrongBytes(b, poc2StartHeight, i);
    }
  }

  lemma WrongBytes(b: Batch, poc2StartHeight: nat, i: nat)
    requires IsReady(b) && i < b.pending && OnPoC2(b.reqs[i], poc2StartHeight) != OnPoC2(b.reqs[0], poc2StartHeight)
    ensures !ReadsOwn(b, poc2StartHeight, Marked(b.reqs[i].request.scoop * SCOOP_SIZE + 32), i)
  {
    hide ScoopFor, Marked;
    VersionsDiffer(b.reqs[i].request.scoop);
  }

  /** Four requests found one after another, and then none, are posted as one batch. */
  method FourThenNone(d: Distributor, a: CalcReq, b: CalcReq)
    requires d.Valid() && d.parallel == d.reqs.Length == 4 && d.pending == d.waited == 0 && d.posted == []
    modifies d, d.reqs
    ensures d.Valid() && d.posted == [Batch([a, b, b, b], 4)]
            && d.results == old(d.results) + [Some(a), Some(b), Some(b), Some(b), None]
  {
    hide Distributor.Valid;
    ghost var start := d.reqs[..];
    d.Round(Some(a));
    assert d.pending == 1 && d.waited == 0 && d.reqs[..] == start[0 := a] && d.posted == [];
    d.Round(Some(b));
    assert d.pending == 2 && d.waited == 0 && d.reqs[..] == start[0 := a][1 := b] && d.posted == [];
    d.Round(Some(b));
    assert d.pending == 3 && d.waited == 0 && d.reqs[..] == start[0 := a][1 := b][2 := b] && d.posted == [];
    d.Round(Some(b));
    assert d.pending == 4 && d.posted == [] && |d.reqs[..]| == 4;
    ghost var full := d.reqs[..];
    assert full == [a, b, b, b];
    d.Round(None);
  }

  /** One request before, three after: a batch that straddles the height.  On the plot given, the
      second request is computed from the wrong bytes. */
  lemma Straddles(r: Request, poc2StartHeight: nat)
    requires IsRequest(r) && poc2StartHeight > 0
    ensures var after, before := CalcReq(r, poc2StartHeight), CalcReq(r, poc2StartHeight - 1);
            var b := Batch([after, before, before, before], 4);
            IsReady(b) && !OneSided(b, poc2StartHeight) && !ReadsOwn(b, poc2StartHeight, Marked(r.scoop * SCOOP_SIZE + 32), 1)
  {
    var after, before := CalcReq(r, poc2StartHeight), CalcReq(r, poc2StartHeight - 1);
    var b := Batch([after, before, before, before], 4);
    assert b.reqs[1] == before && b.reqs[0] == after;
    WrongBytes(b, poc2StartHeight, 1);
  }

  /** The loop does post it: the four requests arrive together while the chain passes the height. */
  method StraddlingRun(r: Request, padding: CalcReq, poc2StartHeight: nat) returns (d: Distributor)
    requires IsRequest(r) && poc2StartHeight > 0
    ensures fresh(d) && d.Valid() && |d.posted| == 1 && IsReady(d.posted[0]) && d.posted[0].pending == 4
    ensures !OneSided(d.posted[0], poc2StartHeight)
    ensures !ReadsOwn(d.posted[0], poc2StartHeight, Marked(r.scoop * SCOOP_SIZE + 32), 1)
  {
    hide IsReady, OneSided, ReadsOwn, IsRequest, Marked;
    Straddles(r, poc2StartHeight);
    d := NewRun(padding, CalcReq(r, poc2StartHeight), CalcReq(r, poc2StartHeight - 1));
  }

  method NewRun(padding: CalcReq, a: CalcReq, b: CalcReq) returns (d: Distributor)
    ensures fresh(d) && d.Valid() && d.posted == [Batch([a, b, b, b], 4)]
  {
    d := new Distributor(4, padding);
    hide Distributor.Valid;
    FourThenNone(d, a, b);
  }
}
