module MinerRounds {
  /* Submissions through one MinerRound (src/DeadlineRequestHandler.cpp, src/Wallet.cpp) under
     interleaving: validator threads that only try its lock, and the wallet, which resets it. */

  import opened Options

  type Thread = nat

  const NONE: nat := 0xFFFF_FFFF_FFFF_FFFF      // the deadline of a round without a submission

  /** The steps of validate_deadline, and of one reset in cache_miners. */
  datatype Pc =
    | Idle
    | TryLock(height: nat, deadline: nat)
    | Check(height: nat, deadline: nat)
    | Submit(height: nat, deadline: nat)
    | Record(deadline: nat)
    | Unlock
    | Lock(newHeight: nat)
    | ResetDeadline(newHeight: nat)
    | ResetHeight(newHeight: nat)

  datatype Submission = Submission(height: nat, deadline: nat)

  /** `round` is history: what was submitted since the deadline was last reset. */
  datatype State = State(
    owner: Option<Thread>, deadline: nat, height: nat,
    pcs: map<Thread, Pc>, round: seq<Submission>)

  datatype Action =
    | Validate(thread: Thread, height: nat, deadline: nat)
    | Reset(thread: Thread, height: nat)
    | Run(thread: Thread, fails: bool)             // try_lock may fail even when the lock is free

  ghost predicate Enabled(s: State, a: Action) {
    && a.thread in s.pcs
    && match a
       case Validate(t, _, d) => s.pcs[t] == Idle && d <= NONE
       case Reset(t, _) => s.pcs[t] == Idle
       case Run(t, _) => s.pcs[t] != Idle && (s.pcs[t].Lock? ==> s.owner == None)
  }

  ghost function Apply(limit: nat, s: State, a: Action): State
    requires Enabled(s, a)
  {
    var t := a.thread;
    match a
    case Validate(_, h, d) => if d > limit then s else s.(pcs := s.pcs[t := TryLock(h, d)])
    case Reset(_, h) => s.(pcs := s.pcs[t := Lock(h)])
    case Run(_, fails) =>
      match s.pcs[t]
      case Idle => s
      case TryLock(h, d) =>
        if s.owner.None? && !fails then s.(owner := Some(t), pcs := s.pcs[t := Check(h, d)])
        else s.(pcs := s.pcs[t := Idle])
      case Check(h, d) => s.(pcs := s.pcs[t := if s.height == h && s.deadline > d then Submit(h, d) else Unlock])
      case Submit(h, d) => s.(pcs := s.pcs[t := Record(d)], round := s.round + [Submission(h, d)])
      case Record(d) => s.(deadline := d, pcs := s.pcs[t := Unlock])
      case Unlock => s.(owner := None, pcs := s.pcs[t := Idle])
      case Lock(h) => s.(owner := Some(t), pcs := s.pcs[t := ResetDeadline(h)])
      case ResetDeadline(h) => s.(deadline := NONE, round := [], pcs := s.pcs[t := ResetHeight(h)])
      case ResetHeight(h) => s.(height := h, pcs := s.pcs[t := Unlock])
  }

  // ----- The invariant -----

  predicate Holding(pc: Pc) { pc.Check? || pc.Submit? || pc.Record? || pc.Unlock? || pc.ResetDeadline? || pc.ResetHeight? }

  /** The best deadline submitted in the round, or NONE. */
  ghost function Best(round: seq<Submission>): nat {
    if round == [] then NONE else round[|round| - 1].deadline
  }

  /** Submissions get better and better, and respect the limit. */
  ghost predicate RoundOk(limit: nat, round: seq<Submission>) {
    && (forall i | 0 <= i < |round| :: round[i].deadline <= limit && round[i].deadline < NONE)
    && (forall i, j | 0 <= i < j < |round| :: round[j].deadline < round[i].deadline)
  }

  ghost predicate PcOk(limit: nat, s: State, t: Thread, pc: Pc) {
    && (Holding(pc) <==> s.owner == Some(t))
    && ((pc.TryLock? || pc.Check? || pc.Submit? || pc.Record?) ==> pc.deadline <= limit)
    && (pc.Submit? ==> s.height == pc.height && s.deadline > pc.deadline)
    && (pc.Record? ==> s.round != [] && Best(s.round) == pc.deadline)
    && (pc.ResetHeight? ==> s.round == [])
  }

  /** The thread that has submitted but not yet recorded. */
  ghost predicate Recording(s: State) { s.owner.Some? && s.owner.value in s.pcs && s.pcs[s.owner.value].Record? }

  ghost predicate Inv(limit: nat, s: State) {
    && RoundOk(limit, s.round)
    && (forall i | 0 <= i < |s.round| :: s.round[i].height == s.height)
    && (!Recording(s) ==> s.deadline == Best(s.round))
    && (s.owner.Some? ==> s.owner.value in s.pcs)
    && (forall t <- s.pcs {:trigger PcOk(limit, s, t, s.pcs[t])} :: PcOk(limit, s, t, s.pcs[t]))
  }

  lemma RoundKept(limit: nat, s: State, a: Action)
    requires Inv(limit, s) && Enabled(s, a) && PcOk(limit, s, a.thread, s.pcs[a.thread])
    ensures RoundOk(limit, Apply(limit, s, a).round)
  {
  }

  lemma StepInv(limit: nat, s: State, a: Action)
    requires Inv(limit, s) && Enabled(s, a)
    ensures Inv(limit, Apply(limit, s, a))
  {
    var s', t := Apply(limit, s, a), a.thread;
    assert PcOk(limit, s, t, s.pcs[t]);
    RoundKept(limit, s, a);
    hide RoundOk;
    forall u <- s'.pcs ensures PcOk(limit, s', u, s'.pcs[u]) { assert PcOk(limit, s, u, s.pcs[u]); }
  }

  // ----- Runs -----

  ghost predicate Init(s: State) {
    s.owner == None && s.deadline == NONE && s.round == [] && forall t <- s.pcs :: s.pcs[t] == Idle
  }

  ghost predicate Step(limit: nat, s: State, a: Action, s': State) { Enabled(s, a) && s' == Apply(limit, s, a) }

  ghost predicate Execution(limit: nat, run: seq<State>, acts: seq<Action>) {
    |run| == |acts| + 1 && Init(run[0]) && forall i | 0 <= i < |acts| :: Step(limit, run[i], acts[i], run[i + 1])
  }

  lemma {:induction false} Reachable(limit: nat, run: seq<State>, acts: seq<Action>, i: nat)
    requires Execution(limit, run, acts) && i < |run|
    ensures Inv(limit, run[i])
  {
    if i > 0 {
      Reachable(limit, run, acts, i - 1);
      assert Step(limit, run[i - 1], acts[i - 1], run[i]);
      StepInv(limit, run[i - 1], acts[i - 1]);
    }
  }

  /** In every interleaving the submissions of one round strictly decrease, stay within the limit and
      carry the round's height; and whenever the lock is free the recorded deadline is the least
      submitted, or 2^64 - 1 if there is none. */
  lemma RoundSubmissions(limit: nat, run: seq<State>, acts: seq<Action>, i: nat)
    requires Execution(limit, run, acts) && i < |run|
    ensures var s := run[i];
            && (forall k | 0 <= k < |s.round| :: s.round[k].deadline <= limit && s.round[k].height == s.height)
            && (forall j, k | 0 <= j < k < |s.round| :: s.round[k].deadline < s.round[j].deadline)
            && (s.owner == None ==> forall k | 0 <= k < |s.round| :: s.deadline <= s.round[k].deadline)
            && (s.owner == None ==> if s.round == [] then s.deadline == NONE
                                    else exists k :: 0 <= k < |s.round| && s.deadline == s.round[k].deadline)
  {
    Reachable(limit, run, acts, i);
    var s := run[i];
    if s.owner == None && s.round != [] {
      assert s.deadline == s.round[|s.round| - 1].deadline;
    }
  }

  /** The lock really excludes: at most one thread is past it. */
  lemma OneHolder(limit: nat, run: seq<State>, acts: seq<Action>, i: nat, t: Thread, u: Thread)
    requires Execution(limit, run, acts) && i < |run| && t in run[i].pcs && u in run[i].pcs
    requires Holding(run[i].pcs[t]) && Holding(run[i].pcs[u])
    ensures t == u
  {
    Reachable(limit, run, acts, i);
    assert PcOk(limit, run[i], t, run[i].pcs[t]) && PcOk(limit, run[i], u, run[i].pcs[u]);
  }

  /** Until its next action a thread stays where it is. */
  lemma {:induction false} StaysPut(limit: nat, run: seq<State>, acts: seq<Action>, i: nat, j: nat, t: Thread)
    requires Execution(limit, run, acts) && i < j < |run| && t in run[i].pcs && acts[i].thread == t
    requires forall k | i < k < j :: acts[k].thread != t
    ensures t in run[j].pcs && run[j].pcs[t] == run[i + 1].pcs[t]
    decreases j - i
  {
    assert Step(limit, run[j - 1], acts[j - 1], run[j]);
    if i + 1 < j { StaysPut(limit, run, acts, i, j - 1, t); }
  }

  /** While a thread holds the lock nobody else touches the round. */
  lemma {:induction false} Untouched(limit: nat, run: seq<State>, acts: seq<Action>, i: nat, j: nat, t: Thread)
    requires Execution(limit, run, acts) && i < j < |run| && t in run[i].pcs && acts[i].thread == t
    requires forall k | i < k < j :: acts[k].thread != t
    requires t in run[i + 1].pcs && Holding(run[i + 1].pcs[t])
    ensures run[j].deadline == run[i + 1].deadline && run[j].height == run[i + 1].height && run[j].round == run[i + 1].round
    decreases j - i
  {
    if i + 1 < j {
      Untouched(limit, run, acts, i, j - 1, t);
      StaysPut(limit, run, acts, i, j - 1, t);
      assert Step(limit, run[j - 1], acts[j - 1], run[j]);
      Reachable(limit, run, acts, j - 1);
      var s, u := run[j - 1], acts[j - 1].thread;
      assert PcOk(limit, s, t, s.pcs[t]) && PcOk(limit, s, u, s.pcs[u]);
      hide RoundOk, Execution;
    }
  }

  /** A deadline is lost only if another thread had the lock, or the try failed: a validation that gets
      the lock, and finds its height and a worse deadline there, submits it at its next step but one,
      whatever other threads do in between. */
  lemma BetterIsSubmitted(limit: nat, run: seq<State>, acts: seq<Action>, i: nat, j: nat, t: Thread)
    requires Execution(limit, run, acts) && i < j < |acts| && t in run[i].pcs && run[i].pcs[t].Check?
    requires acts[i].Run? && acts[i].thread == t && acts[j].thread == t && forall k | i < k < j :: acts[k].thread != t
    requires run[i].height == run[i].pcs[t].height && run[i].deadline > run[i].pcs[t].deadline
    ensures run[j + 1].round == run[i].round + [Submission(run[i].pcs[t].height, run[i].pcs[t].deadline)]
  {
    assert Step(limit, run[i], acts[i], run[i + 1]);
    StaysPut(limit, run, acts, i, j, t);
    Untouched(limit, run, acts, i, j, t);
    assert Step(limit, run[j], acts[j], run[j + 1]);
  }

  // ----- A whole call -----

  /** j is thread t's next action after i. */
  ghost predicate NextOf(acts: seq<Action>, t: Thread, i: nat, j: nat) {
    i < j < |acts| && acts[j].thread == t && forall k | i < k < j :: acts[k].thread != t
  }

  /** Of a validation's steps it is the third after the call that submits, and it does so if and only if
      the deadline is within the limit, the lock is free and the try for it does not fail, and the check
      finds the round at the request's height with a worse deadline, or with none. */
  lemma SubmitsWhen(limit: nat, run: seq<State>, acts: seq<Action>, i: nat, j: nat, k: nat, l: nat, t: Thread, h: nat, d: nat)
    requires Execution(limit, run, acts) && i < |acts| && acts[i] == Validate(t, h, d)
    requires NextOf(acts, t, i, j) && NextOf(acts, t, j, k) && NextOf(acts, t, k, l)
    ensures acts[j].Run? <==> d <= limit
    ensures (&& d <= limit && run[j].owner == None && !acts[j].fails
             && run[k].height == h && run[k].deadline > d)
       <==> run[l + 1].round == run[l].round + [Submission(h, d)]
  {
    assert Step(limit, run[i], acts[i], run[i + 1]);
    StaysPut(limit, run, acts, i, j, t);
    assert Step(limit, run[j], acts[j], run[j + 1]);
    StaysPut(limit, run, acts, j, k, t);
    assert Step(limit, run[k], acts[k], run[k + 1]);
    StaysPut(limit, run, acts, k, l, t);
    assert Step(limit, run[l], acts[l], run[l + 1]);
    OnlySubmits(limit, run[l], acts[l], Submission(h, d));
    hide Execution;
  }

  /** A round grows only by the step that submits. */
  lemma OnlySubmits(limit: nat, s: State, a: Action, x: Submission)
    requires Enabled(s, a)
    ensures Apply(limit, s, a).round == s.round + [x] <==> a.Run? && s.pcs[a.thread] == Submit(x.height, x.deadline)
  {
    assert |s.round + [x]| == |s.round| + 1 && (s.round + [x])[|s.round|] == x;
  }

  /** A reset that has the lock leaves a new round of the height it was called with. */
  lemma ResetStarts(limit: nat, run: seq<State>, acts: seq<Action>, i: nat, j: nat, k: nat, l: nat, t: Thread, h: nat)
    requires Execution(limit, run, acts) && i < |acts| && acts[i] == Reset(t, h)
    requires NextOf(acts, t, i, j) && NextOf(acts, t, j, k) && NextOf(acts, t, k, l)
    ensures var s := run[l + 1];
            s.height == h && s.deadline == NONE && s.round == [] && s.owner == Some(t) && t in s.pcs && s.pcs[t] == Unlock
  {
    assert Step(limit, run[i], acts[i], run[i + 1]);
    StaysPut(limit, run, acts, i, j, t);
    assert Step(limit, run[j], acts[j], run[j + 1]);
    StaysPut(limit, run, acts, j, k, t);
    assert Step(limit, run[k], acts[k], run[k + 1]);
    StaysPut(limit, run, acts, k, l, t);
    Untouched(limit, run, acts, k, l, t);
    assert Step(limit, run[l], acts[l], run[l + 1]);
    Reachable(limit, run, acts, l);
    assert PcOk(limit, run[l], t, run[l].pcs[t]);
    hide Execution, RoundOk;
  }

  /** How many more steps a call takes. */
  function StepsLeft(pc: Pc): nat {
    match pc
    case Idle => 0
    case Unlock => 1
    case Record(_) | ResetHeight(_) => 2
    case Submit(_, _) | ResetDeadline(_) => 3
    case Check(_, _) | Lock(_) => 4
    case TryLock(_, _) => 5
  }

  /** A step of its own brings a thread nearer to its end, and nobody else's moves it: a call that takes
      its steps ends, and with it the hold on the lock.  Only a reset can have to wait, for the lock. */
  lemma CallsEnd(limit: nat, s: State, a: Action, t: Thread)
    requires Inv(limit, s) && Enabled(s, a) && t in s.pcs
    ensures var s' := Apply(limit, s, a);
            && t in s'.pcs && (a.Run? && a.thread == t ==> StepsLeft(s'.pcs[t]) < StepsLeft(s.pcs[t]))
            && (a.thread != t ==> s'.pcs[t] == s.pcs[t])
            && (s'.pcs[t] == Idle ==> s'.owner != Some(t))
    ensures s.pcs[t] != Idle && !(s.pcs[t].Lock? && s.owner.Some?) ==> Enabled(s, Run(t, false))
  {
    StepInv(limit, s, a);
    var s' := Apply(limit, s, a);
    assert PcOk(limit, s', t, s'.pcs[t]);
  }
}
