module RateLimiter {
  /* The token bucket of src/RateLimiter.hpp, over the reals: a bucket is one number, the time at
     which it was empty, advanced by a compare-exchange loop. */

  type Thread = nat
  type Key = string

  // ----- The arithmetic of Bucket::aquire -----

  datatype Config = Config(rate: real, burst: real)

  predicate IsConfig(c: Config) { c.rate > 0.0 && c.burst >= 0.0 }

  function Min(a: real, b: real): real { if b < a then b else a }
  function Max(a: real, b: real): real { if a < b then b else a }

  function Tokens(c: Config, zero: real, now: real): real { Min((now - zero) * c.rate, c.burst) }

  predicate Grants(c: Config, zero: real, now: real) { Tokens(c, zero, now) >= 1.0 }

  /** zero_time_new, with one token consumed. */
  function NextZero(c: Config, zero: real, now: real): real
    requires IsConfig(c)
  {
    now - (Tokens(c, zero, now) - 1.0) / c.rate
  }

  // ----- The machine: any number of threads and keys -----

  datatype Pc =
    | Idle
    | Test(key: Key, now: real, seen: real)               // the loop's test of the value last read
    | Swap(key: Key, now: real, seen: real, next: real)   // compare_exchange_weak

  /** `grants` is history: the clock reading of every request that was granted, the first of which
      created the bucket. */
  datatype Bucket = Bucket(zero: real, grants: seq<real>)

  datatype State = State(buckets: map<Key, Bucket>, pcs: map<Thread, Pc>)

  datatype Action =
    | Call(thread: Thread, key: Key, now: real)          // RateLimiter::aquire, up to the first load
    | Run(thread: Thread, spurious: bool)

  ghost predicate Enabled(s: State, a: Action) {
    match a
    case Call(t, _, _) => t in s.pcs && s.pcs[t] == Idle
    case Run(t, _) => t in s.pcs && s.pcs[t] != Idle
  }

  ghost predicate Defined(s: State, a: Action) { a.Run? && a.thread in s.pcs && !s.pcs[a.thread].Idle? ==>
    s.pcs[a.thread].key in s.buckets }

  ghost function Apply(c: Config, s: State, a: Action): State
    requires IsConfig(c) && Enabled(s, a) && Defined(s, a)
  {
    match a
    case Call(t, key, now) =>
      if key !in s.buckets then s.(buckets := s.buckets[key := Bucket(0.0, [now])])
      else s.(pcs := s.pcs[t := Test(key, now, s.buckets[key].zero)])
    case Run(t, spurious) =>
      match s.pcs[t]
      case Idle => s
      case Test(key, now, seen) =>
        s.(pcs := s.pcs[t := if Grants(c, seen, now) then Swap(key, now, seen, NextZero(c, seen, now)) else Idle])
      case Swap(key, now, seen, next) =>
        var b := s.buckets[key];
        if b.zero == seen && !spurious
        then State(s.buckets[key := Bucket(next, b.grants + [now])], s.pcs[t := Idle])
        else s.(pcs := s.pcs[t := Test(key, now, b.zero)])
  }

  // ----- What the zero time records -----

  /** The zero time after the grants, taken one by one from a new bucket. */
  ghost function ZeroAfter(c: Config, grants: seq<real>): real
    requires IsConfig(c)
  {
    if |grants| <= 1 then 0.0 else NextZero(c, ZeroAfter(c, grants[..|grants| - 1]), grants[|grants| - 1])
  }

  /** Every grant but the first was allowed by the bucket at its turn. */
  ghost predicate AllAllowed(c: Config, grants: seq<real>)
    requires IsConfig(c)
  {
    forall i {:trigger grants[i]} | 1 <= i < |grants| :: Grants(c, ZeroAfter(c, grants[..i]), grants[i])
  }

  ghost predicate BucketOk(c: Config, b: Bucket)
    requires IsConfig(c)
  {
    b.grants != [] && b.zero == ZeroAfter(c, b.grants) && AllAllowed(c, b.grants)
  }

  ghost predicate PcOk(c: Config, s: State, pc: Pc)
    requires IsConfig(c)
  {
    && (!pc.Idle? ==> pc.key in s.buckets)
    && (pc.Swap? ==> Grants(c, pc.seen, pc.now) && pc.next == NextZero(c, pc.seen, pc.now))
  }

  ghost predicate Inv(c: Config, s: State)
    requires IsConfig(c)
  {
    && (forall key <- s.buckets {:trigger BucketOk(c, s.buckets[key])} :: BucketOk(c, s.buckets[key]))
    && (forall t <- s.pcs {:trigger PcOk(c, s, s.pcs[t])} :: PcOk(c, s, s.pcs[t]))
  }

  lemma GrantKeeps(c: Config, b: Bucket, now: real)
    requires IsConfig(c) && BucketOk(c, b) && Grants(c, b.zero, now)
    ensures BucketOk(c, Bucket(NextZero(c, b.zero, now), b.grants + [now]))
  {
    var grants := b.grants + [now];
    assert grants[..|grants| - 1] == b.grants;
    forall i | 1 <= i < |grants| ensures Grants(c, ZeroAfter(c, grants[..i]), grants[i]) {
      if i < |b.grants| { assert grants[..i] == b.grants[..i] && grants[i] == b.grants[i]; }
    }
  }

  lemma StepInv(c: Config, s: State, a: Action)
    requires IsConfig(c) && Inv(c, s) && Enabled(s, a)
    ensures Defined(s, a) && Inv(c, Apply(c, s, a))
  {
    hide Tokens, NextZero;
    if a.Run? {
      var pc := s.pcs[a.thread];
      assert PcOk(c, s, pc);
      if pc.Swap? && s.buckets[pc.key].zero == pc.seen {
        assert BucketOk(c, s.buckets[pc.key]);
        GrantKeeps(c, s.buckets[pc.key], pc.now);
      }
    }
    var s' := Apply(c, s, a);
    forall key <- s'.buckets ensures BucketOk(c, s'.buckets[key]) {
      if key in s.buckets { assert BucketOk(c, s.buckets[key]); }
    }
    forall t <- s'.pcs ensures PcOk(c, s', s'.pcs[t]) { assert PcOk(c, s, s.pcs[t]); }
  }

  ghost predicate Init(s: State) { s.buckets == map[] && forall t <- s.pcs :: s.pcs[t] == Idle }

  ghost predicate Step(c: Config, s: State, a: Action, s': State)
    requires IsConfig(c)
  {
    Enabled(s, a) && Defined(s, a) && s' == Apply(c, s, a)
  }

  ghost predicate Execution(c: Config, run: seq<State>, acts: seq<Action>)
    requires IsConfig(c)
  {
    |run| == |acts| + 1 && Init(run[0]) && forall i | 0 <= i < |acts| :: Step(c, run[i], acts[i], run[i + 1])
  }

  lemma {:induction false} Reachable(c: Config, run: seq<State>, acts: seq<Action>, i: nat)
    requires IsConfig(c) && Execution(c, run, acts) && i < |run|
    ensures Inv(c, run[i])
  {
    if i > 0 {
      Reachable(c, run, acts, i - 1);
      assert Step(c, run[i - 1], acts[i - 1], run[i]);
      StepInv(c, run[i - 1], acts[i - 1]);
    }
  }

  // ----- When a request is denied -----

  /** At step m, its last before step i, thread t read the zero time of the bucket it is at: as the
      call began, or as its swap failed. */
  ghost predicate LastRead(run: seq<State>, acts: seq<Action>, t: Thread, m: nat, i: nat)
    requires |run| == |acts| + 1 && i < |run| && t in run[i].pcs && !run[i].pcs[t].Idle?
  {
    var pc := run[i].pcs[t];
    && m < i && acts[m].thread == t && (forall k | m < k < i :: acts[k].thread != t)
    && t in run[m].pcs && pc.key in run[m].buckets
    && (acts[m] == Call(t, pc.key, pc.now) || (run[m].pcs[t].Swap? && run[m].pcs[t].key == pc.key && run[m].pcs[t].now == pc.now))
  }

  /** What a thread tests is the zero time of its last read. */
  lemma {:induction false} SeenWasRead(c: Config, run: seq<State>, acts: seq<Action>, i: nat, t: Thread) returns (m: nat)
    requires IsConfig(c) && Execution(c, run, acts) && i < |run| && t in run[i].pcs && run[i].pcs[t].Test?
    ensures LastRead(run, acts, t, m, i) && run[m].buckets[run[i].pcs[t].key].zero == run[i].pcs[t].seen
  {
    hide Grants, NextZero;
    if i == 0 { return; }
    assert Step(c, run[i - 1], acts[i - 1], run[i]);
    m := i - 1;
    if acts[i - 1].thread != t { m := SeenWasRead(c, run, acts, i - 1, t); }
  }

  /** A request is denied exactly if, when it last read the zero time, the bucket had no token for it:
      so never while there was one all through the call.  Otherwise it goes on to take one. */
  lemma DeniedWhenEmpty(c: Config, run: seq<State>, acts: seq<Action>, i: nat, t: Thread) returns (m: nat)
    requires IsConfig(c) && Execution(c, run, acts) && i < |acts|
    requires t in run[i].pcs && run[i].pcs[t].Test? && acts[i].thread == t
    ensures LastRead(run, acts, t, m, i) && t in run[i + 1].pcs && run[i + 1].buckets == run[i].buckets
    ensures var pc := run[i].pcs[t];
            var empty := (pc.now - run[m].buckets[pc.key].zero) * c.rate < 1.0 || c.burst < 1.0;
            if empty then run[i + 1].pcs[t] == Idle
            else run[i + 1].pcs[t].Swap? && run[i + 1].pcs[t].key == pc.key && run[i + 1].pcs[t].now == pc.now
  {
    m := SeenWasRead(c, run, acts, i, t);
    assert Step(c, run[i], acts[i], run[i + 1]);
    hide NextZero, Execution;
  }

  /** The bucket a swap expects is the one of the last read. */
  lemma {:induction false} ExpectedWasRead(c: Config, run: seq<State>, acts: seq<Action>, i: nat, t: Thread)
    returns (k: nat, m: nat)
    requires IsConfig(c) && Execution(c, run, acts) && i < |run| && t in run[i].pcs && run[i].pcs[t].Swap?
    ensures k < i && t in run[k].pcs && run[k].pcs[t].Test? && LastRead(run, acts, t, m, k)
    ensures run[k].pcs[t].key == run[i].pcs[t].key && run[m].buckets[run[i].pcs[t].key].zero == run[i].pcs[t].seen
  {
    hide Grants, NextZero;
    if i == 0 { return; }
    assert Step(c, run[i - 1], acts[i - 1], run[i]);
    if acts[i - 1].thread == t {
      k := i - 1;
      m := SeenWasRead(c, run, acts, k, t);
    } else {
      k, m := ExpectedWasRead(c, run, acts, i - 1, t);
    }
  }

  /** A swap grants the request, or the loop goes round: only for a spurious failure or because another
      request was granted since the last read. */
  lemma RetriesAfterGrant(c: Config, run: seq<State>, acts: seq<Action>, i: nat, t: Thread) returns (m: nat)
    requires IsConfig(c) && Execution(c, run, acts) && i < |acts|
    requires t in run[i].pcs && run[i].pcs[t].Swap? && acts[i].Run? && acts[i].thread == t
    ensures var key := run[i].pcs[t].key;
            && m < i && t in run[i + 1].pcs && key in run[m].buckets && key in run[i].buckets && key in run[i + 1].buckets
            && if run[i + 1].pcs[t] == Idle
               then run[i + 1].buckets[key].grants == run[i].buckets[key].grants + [run[i].pcs[t].now]
               else acts[i].spurious || run[m].buckets[key].grants != run[i].buckets[key].grants
  {
    var k;
    k, m := ExpectedWasRead(c, run, acts, i, t);
    assert Step(c, run[i], acts[i], run[i + 1]);
    Reachable(c, run, acts, i);
    Reachable(c, run, acts, m);
    var key := run[i].pcs[t].key;
    assert PcOk(c, run[i], run[i].pcs[t]);
    assert BucketOk(c, run[i].buckets[key]) && BucketOk(c, run[m].buckets[key]);
    hide Grants, NextZero, Execution;
  }

  /** Alone, a request is decided by the bucket it finds; a spurious failure only puts it back to the test. */
  lemma LoneRequest(c: Config, s: State, t: Thread, key: Key, now: real, spurious: bool)
    requires IsConfig(c) && Inv(c, s) && t in s.pcs && s.pcs[t] == Idle
    ensures var s1 := Apply(c, s, Call(t, key, now));
            if key !in s.buckets then s1 == s.(buckets := s.buckets[key := Bucket(0.0, [now])])
            else
              var b := s.buckets[key];
              && Enabled(s1, Run(t, spurious)) && Defined(s1, Run(t, spurious))
              && var s2 := Apply(c, s1, Run(t, spurious));
                 if !Grants(c, b.zero, now) then s2 == s
                 else
                   && Enabled(s2, Run(t, false)) && Defined(s2, Run(t, false))
                   && Enabled(s2, Run(t, true)) && Defined(s2, Run(t, true))
                   && Apply(c, s2, Run(t, false))
                        == s.(buckets := s.buckets[key := Bucket(NextZero(c, b.zero, now), b.grants + [now])])
                   && Apply(c, s2, Run(t, true)) == s1
  {
    hide Grants, NextZero;
    assert s.pcs[t := Idle] == s.pcs;
    if key in s.buckets {
      var seen := s.buckets[key].zero;
      var test, swap := Test(key, now, seen), Swap(key, now, seen, NextZero(c, seen, now));
      assert s.pcs[t := test][t := Idle] == s.pcs && s.pcs[t := test][t := swap][t := Idle] == s.pcs;
      assert s.pcs[t := test][t := swap][t := test] == s.pcs[t := test];
    }
  }

  // ----- The window bound -----

  /** A grant moves the zero time up by one period, and to within a full bucket of the clock. */
  lemma NextZeroIs(c: Config, zero: real, now: real)
    requires IsConfig(c)
    ensures NextZero(c, zero, now) == Max(zero, now - c.burst / c.rate) + 1.0 / c.rate
    ensures Grants(c, zero, now) ==> NextZero(c, zero, now) <= now
  {
    var x := (now - zero) * c.rate;
    assert x / c.rate == now - zero;
    var y := Tokens(c, zero, now);
    assert (y - 1.0) / c.rate == y / c.rate - 1.0 / c.rate;
    if x <= c.burst { DivMono(x, c.burst, c.rate); } else { DivMono(c.burst, x, c.rate); }
    if y >= 1.0 { DivMono(1.0, y, c.rate); }
  }

  lemma DivMono(a: real, b: real, d: real)
    requires a <= b && d > 0.0
    ensures a / d <= b / d
  {
  }

  function InWindow(grants: seq<real>, t1: real, t2: real): (n: nat)
    ensures n <= |grants|
  {
    if grants == [] then 0
    else InWindow(grants[..|grants| - 1], t1, t2) + if t1 <= grants[|grants| - 1] <= t2 then 1 else 0
  }

  /** After the first grant, n grants in the window have pushed the zero time up n periods. */
  lemma {:induction false} WindowPushes(c: Config, grants: seq<real>, t1: real, t2: real)
    requires IsConfig(c) && grants != [] && AllAllowed(c, grants)
    ensures InWindow(grants[1..], t1, t2) > 0 ==>
              ZeroAfter(c, grants) >= t1 - c.burst / c.rate + InWindow(grants[1..], t1, t2) as real / c.rate
  {
    hide NextZero, Grants, AllAllowed;
    if |grants| > 1 {
      var before, now := grants[..|grants| - 1], grants[|grants| - 1];
      Shorter(c, grants);
      WindowPushes(c, before, t1, t2);
      NextZeroIs(c, ZeroAfter(c, before), now);
      assert grants[1..][..|grants| - 2] == before[1..];
      OneMorePeriod(InWindow(before[1..], t1, t2), c.rate);
    }
  }

  lemma OneMorePeriod(n: nat, rate: real)
    requires rate > 0.0
    ensures (n + 1) as real / rate == n as real / rate + 1.0 / rate && 1.0 / rate > 0.0
    ensures n == 0 ==> n as real / rate == 0.0
  {
  }

  lemma Shorter(c: Config, grants: seq<real>)
    requires IsConfig(c) && |grants| > 1 && AllAllowed(c, grants)
    ensures AllAllowed(c, grants[..|grants| - 1])
    ensures Grants(c, ZeroAfter(c, grants[..|grants| - 1]), grants[|grants| - 1])
  {
    var before := grants[..|grants| - 1];
    forall i | 1 <= i < |before| ensures Grants(c, ZeroAfter(c, before[..i]), before[i]) {
      assert before[..i] == grants[..i] && before[i] == grants[i];
    }
  }

  lemma {:induction false} WindowBoundFrom(c: Config, grants: seq<real>, t1: real, t2: real)
    requires IsConfig(c) && grants != [] && AllAllowed(c, grants) && t1 <= t2
    ensures InWindow(grants[1..], t1, t2) as real <= c.burst + c.rate * (t2 - t1)
  {
    if |grants| == 1 {
      MulMono(0.0, t2 - t1, c.rate);
    } else {
      var before, now := grants[..|grants| - 1], grants[|grants| - 1];
      assert grants[1..][..|grants| - 2] == before[1..];
      Shorter(c, grants);
      if t1 <= now <= t2 {
        WindowPushes(c, grants, t1, t2);
        NextZeroIs(c, ZeroAfter(c, before), now);
        Scale(c, InWindow(grants[1..], t1, t2) as real, t1, t2);
      } else {
        WindowBoundFrom(c, before, t1, t2);
      }
    }
  }

  lemma Scale(c: Config, n: real, t1: real, t2: real)
    requires IsConfig(c) && t1 - c.burst / c.rate + n / c.rate <= t2
    ensures n <= c.burst + c.rate * (t2 - t1)
  {
    var d := n / c.rate - c.burst / c.rate;
    assert d * c.rate == n - c.burst;
    assert d <= t2 - t1;
    MulMono(d, t2 - t1, c.rate);
  }

  lemma MulMono(a: real, b: real, r: real)
    requires a <= b && r >= 0.0
    ensures a * r <= b * r
  {
  }

  lemma {:induction false} FirstApart(grants: seq<real>, t1: real, t2: real)
    requires grants != []
    ensures InWindow(grants, t1, t2) <= 1 + InWindow(grants[1..], t1, t2)
  {
    if |grants| > 1 {
      FirstApart(grants[..|grants| - 1], t1, t2);
      assert grants[1..][..|grants| - 2] == grants[..|grants| - 1][1..];
    }
  }

  /** The limit: in any interleaving, with clock readings in any order and spurious failures, the
      grants for a key whose clock reading lies in a window number at most one - the free first
      request - plus the burst plus what the window refills. */
  lemma WindowBound(c: Config, run: seq<State>, acts: seq<Action>, i: nat, key: Key, t1: real, t2: real)
    requires IsConfig(c) && Execution(c, run, acts) && i < |run| && key in run[i].buckets && t1 <= t2
    ensures InWindow(run[i].buckets[key].grants, t1, t2) as real <= 1.0 + c.burst + c.rate * (t2 - t1)
  {
    Reachable(c, run, acts, i);
    var b := run[i].buckets[key];
    assert BucketOk(c, b);
    WindowBoundFrom(c, b.grants, t1, t2);
    FirstApart(b.grants, t1, t2);
  }

  // ----- The textbook bucket -----

  /** A level, and the time it was last brought up to date. */
  datatype Textbook = Textbook(level: real, last: real)

  function Refilled(c: Config, b: Textbook, now: real): real { Min(b.level + (now - b.last) * c.rate, c.burst) }

  function TextbookAquire(c: Config, b: Textbook, now: real): (bool, Textbook) {
    var level := Refilled(c, b, now);
    if level >= 1.0 then (true, Textbook(level - 1.0, now)) else (false, Textbook(level, now))
  }

  ghost predicate Represents(c: Config, zero: real, b: Textbook) { b.level == Min((b.last - zero) * c.rate, c.burst) }

  /** With a clock that does not go back, the one-number bucket decides as the textbook bucket does,
      and stays its representation. */
  lemma RefinesTextbook(c: Config, zero: real, b: Textbook, now: real)
    requires IsConfig(c) && Represents(c, zero, b) && b.last <= now
    ensures Grants(c, zero, now) == TextbookAquire(c, b, now).0
    ensures Represents(c, if Grants(c, zero, now) then NextZero(c, zero, now) else zero, TextbookAquire(c, b, now).1)
  {
    assert (now - zero) * c.rate == (b.last - zero) * c.rate + (now - b.last) * c.rate;
    MulMono(0.0, now - b.last, c.rate);
    assert Tokens(c, zero, now) == Refilled(c, b, now);
    if Grants(c, zero, now) {
      var left := Tokens(c, zero, now) - 1.0;
      assert (now - NextZero(c, zero, now)) * c.rate == left by { assert left / c.rate * c.rate == left; }
    }
  }

  /** The decisions on a series of requests, and the zero time after them. */
  function Decisions(c: Config, zero: real, nows: seq<real>): (seq<bool>, real)
    requires IsConfig(c)
    decreases nows
  {
    if nows == [] then ([], zero)
    else
      var ok := Grants(c, zero, nows[0]);
      var (rest, last) := Decisions(c, if ok then NextZero(c, zero, nows[0]) else zero, nows[1..]);
      ([ok] + rest, last)
  }

  function TextbookDecisions(c: Config, b: Textbook, nows: seq<real>): (seq<bool>, Textbook)
    decreases nows
  {
    if nows == [] then ([], b)
    else
      var (ok, next) := TextbookAquire(c, b, nows[0]);
      var (rest, last) := TextbookDecisions(c, next, nows[1..]);
      ([ok] + rest, last)
  }

  ghost predicate Forward(from: real, nows: seq<real>) {
    (nows != [] ==> from <= nows[0]) && forall i, j | 0 <= i < j < |nows| :: nows[i] <= nows[j]
  }

  /** On every series of requests whose clock does not go back, the two buckets make the same
      decisions, and still represent each other afterwards. */
  lemma {:induction false} RunRefinesTextbook(c: Config, zero: real, b: Textbook, nows: seq<real>)
    requires IsConfig(c) && Represents(c, zero, b) && Forward(b.last, nows)
    ensures Decisions(c, zero, nows).0 == TextbookDecisions(c, b, nows).0
    ensures Represents(c, Decisions(c, zero, nows).1, TextbookDecisions(c, b, nows).1)
    decreases nows
  {
    hide Grants, NextZero, TextbookAquire, Represents;
    if nows != [] {
      var ok, now := Grants(c, zero, nows[0]), nows[0];
      RefinesTextbook(c, zero, b, now);
      var next := TextbookAquire(c, b, now).1;
      AquireTime(c, b, now);
      RunRefinesTextbook(c, if ok then NextZero(c, zero, now) else zero, next, nows[1..]);
    }
  }

  lemma AquireTime(c: Config, b: Textbook, now: real)
    ensures TextbookAquire(c, b, now).1.last == now
  {
  }

  // ----- The objects, used by one thread -----

  class TokenBucket {
    var zeroTime: real

    constructor (zeroTime: real)
      ensures this.zeroTime == zeroTime
    {
      this.zeroTime := zeroTime;
    }

    /** The compare-exchange loop, which may fail spuriously some number of times. */
    method Aquire(c: Config, now: real, spurious: nat) returns (ok: bool)
      requires IsConfig(c)
      modifies this
      ensures ok == Grants(c, old(zeroTime), now)
      ensures zeroTime == if ok then NextZero(c, old(zeroTime), now) else old(zeroTime)
    {
      var seen, failures, swapped := zeroTime, spurious, false;
      while !swapped
        invariant zeroTime == if swapped then NextZero(c, old(zeroTime), now) else old(zeroTime)
        invariant swapped ==> Grants(c, old(zeroTime), now)
        invariant seen == old(zeroTime)
        decreases if swapped then 0 else 1, failures
      {
        var tokens := Min((now - seen) * c.rate, c.burst);
        if tokens < 1.0 { return false; }
        tokens := tokens - 1.0;
        var next := now - tokens / c.rate;
        if failures > 0 {
          failures, seen := failures - 1, zeroTime;
        } else {
          zeroTime, swapped := next, true;
        }
      }
      ok := true;
    }
  }

  class Limiter {
    const config: Config
    var keyToBucket: map<Key, TokenBucket>

    ghost predicate Valid()
      reads this
    {
      IsConfig(config) && forall k, l | k in keyToBucket && l in keyToBucket && k != l :: keyToBucket[k] != keyToBucket[l]
    }

    ghost function Zeros(): map<Key, real>
      reads this, keyToBucket.Values
    {
      map k | k in keyToBucket :: keyToBucket[k].zeroTime
    }

    constructor (config: Config)
      requires IsConfig(config)
      ensures Valid() && keyToBucket == map[] && this.config == config
    {
      this.config := config;
      keyToBucket := map[];
    }

    /** The first request for a key is granted and only creates its bucket; one key's requests never
        move another key's bucket. */
    method Aquire(key: Key, now: real, spurious: nat) returns (ok: bool)
      requires Valid()
      modifies this, keyToBucket.Values
      ensures Valid()
      ensures key !in old(Zeros()) ==> ok && Zeros() == old(Zeros())[key := 0.0]
      ensures key in old(Zeros()) ==> ok == Grants(config, old(Zeros())[key], now)
      ensures key in old(Zeros()) ==>
                Zeros() == if ok then old(Zeros())[key := NextZero(config, old(Zeros())[key], now)] else old(Zeros())
    {
      hide Grants, NextZero;
      if key !in keyToBucket {
        var bucket := new TokenBucket(0.0);
        keyToBucket := keyToBucket[key := bucket];
        return true;
      }
      ok := keyToBucket[key].Aquire(config, now, spurious);
    }
  }
}
