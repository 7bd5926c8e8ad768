/** A limit of the lock-free breaker: an outcome carries no generation, so a call admitted while the breaker was closed
    can be counted as if it were a probe.  This happens exactly when more than one thread uses the breaker. */
module BreakerStale {
  import opened BreakerSpec
  import opened BreakerMachine
  import opened BreakerInvariant
  import opened BreakerSafety
  import opened BreakerOutcome
  import opened BreakerRecovery

  // ----- Two threads are enough -----

  lemma Longer(cfg: Config, run: seq<State>, next: State)
    requires IsRun(cfg, run) && Step(cfg, run[|run| - 1], next)
    ensures IsRun(cfg, run + [next])
  {
    var longer := run + [next];
    assert longer[0] == run[0];
    forall i: nat ensures StepAt(cfg, longer, i) {
      assert StepAt(cfg, run, i);
    }
  }

  lemma Reaches(cfg: Config, s: State, a: Action)
    requires Reachable(cfg, s) && s.hist != [] && Enabled(s, a)
    ensures Reachable(cfg, Apply(cfg, s, a))
  {
    var next := Apply(cfg, s, a);
    var run :| IsRun(cfg, run) && run[|run| - 1] == s;
    assert Step(cfg, s, next);
    Longer(cfg, run, next);
    assert (run + [next])[|run|] == next;
  }

  lemma {:induction false} MovesReach(cfg: Config, s: State, t: nat, n: nat)
    requires Reachable(cfg, s) && s.hist != []
    ensures Reachable(cfg, MoveOn(cfg, s, t, n))
    decreases n
  {
    if n > 0 && Enabled(s, Move(t)) && Apply(cfg, s, Move(t)).hist != [] {
      Reaches(cfg, s, Move(t));
      MovesReach(cfg, Apply(cfg, s, Move(t)), t, n - 1);
    }
  }

  /** Thread `t` enters while nobody else moves. */
  lemma AdmissionReaches(cfg: Config, s: State, t: nat)
    requires Reachable(cfg, s) && s.hist != [] && Enabled(s, Call(t))
    ensures Reachable(cfg, Enter(cfg, s, t))
  {
    Reaches(cfg, s, Call(t));
    MovesReach(cfg, Apply(cfg, s, Call(t)), t, 4);
  }

  lemma CallReaches(cfg: Config, s: State, t: nat, outcome: Outcome, c: State)
    requires Reachable(cfg, s) && OneCall(cfg, s, t, outcome, c)
    ensures Reachable(cfg, c)
  {
    AdmissionReaches(cfg, s, t);
    var a := Enter(cfg, s, t);
    Reaches(cfg, a, Return(t, outcome));
    MovesReach(cfg, Apply(cfg, a, Return(t, outcome)), t, 4);
  }

  lemma Enters(cfg: Config, s: State, t: nat) returns (a: State)
    requires Reachable(cfg, s) && Resting(s, t) && (Current(s).state.Open? ==> CooledDown(cfg, Current(s), s.now))
    ensures Reachable(cfg, a) && Beside(s, a, t) && Current(a) == SeenBy(cfg, Current(s), s.now)
    ensures a.threads[t].pc.Calling? && a.probing == a.threads[t].pc.probe
    ensures a.threads[t].call == Admitted(!Current(s).state.Closed?, |a.hist| - 1)
  {
    SoloAdmission(cfg, s, t);
    AdmissionReaches(cfg, s, t);
    a := Enter(cfg, s, t);
  }

  /** Thread 0 executes a call that was admitted while the breaker was closed; thread 1 may call. */
  ghost predicate Beforehand(cfg: Config, n: nat, s: State) {
    && Reachable(cfg, s) && |s.threads| == n >= 2 && Resting(s, 1)
    && s.threads[0].pc == Calling(false) && s.threads[0].call.Admitted? && !s.threads[0].call.probe
  }

  lemma OldCall(cfg: Config, n: nat) returns (s: State)
    requires n >= 2
    ensures Beforehand(cfg, n, s) && Current(s) == INITIAL
  {
    var s0 := Start(n, 0);
    assert IsRun(cfg, [s0]) && [s0][0] == s0;
    s := Enters(cfg, s0, 0);
    InvReachable(cfg, s);
    TracedReachable(cfg, s);
    assert CallOk(s.hist, s.via, s.threads[0]);
  }

  /** The state of the breaker after `k` failures in a row. */
  ghost predicate FailedTimes(cfg: Config, cur: Snapshot, now: int, k: nat) {
    if k < cfg.maxFailures then cur.state.Closed? && cur.failures == k
    else cur.state.Open? && cur.lastFailedAt == now
  }

  lemma {:induction false} Failures(cfg: Config, n: nat, k: nat) returns (s: State)
    requires Sane(cfg) && n >= 2 && k <= cfg.maxFailures
    ensures Beforehand(cfg, n, s) && FailedTimes(cfg, Current(s), s.now, k)
  {
    if k == 0 {
      s := OldCall(cfg, n);
    } else {
      var before := Failures(cfg, n, k - 1);
      s := SoloCall(cfg, before, 1, Failed);
      CallReaches(cfg, before, 1, Failed, s);
    }
  }

  /** The state of the breaker after the cooldown and `k` successful probes. */
  ghost predicate ProbedTimes(cfg: Config, cur: Snapshot, now: int, k: nat) {
    if k == 0 then cur.state.Open? && CooledDown(cfg, cur, now) else cur.state.HalfOpen? && cur.successes == k
  }

  lemma {:induction false} Probes(cfg: Config, n: nat, k: nat) returns (s: State)
    requires Sane(cfg) && n >= 2 && k < cfg.halfOpenSuccesses
    ensures Beforehand(cfg, n, s) && ProbedTimes(cfg, Current(s), s.now, k)
  {
    if k == 0 {
      var before := Failures(cfg, n, cfg.maxFailures);
      Reaches(cfg, before, Tick(cfg.resetTimeout));
      s := Apply(cfg, before, Tick(cfg.resetTimeout));
    } else {
      var before := Probes(cfg, n, k - 1);
      s := SoloCall(cfg, before, 1, Succeeded);
      CallReaches(cfg, before, 1, Succeeded, s);
    }
  }

  /** One success short of closing, a probe is executing beside the old call, whose thread is at `pc`. */
  ghost predicate Besides(cfg: Config, n: nat, s: State, pc: Pc) {
    && Reachable(cfg, s) && |s.threads| == n >= 2 && s.hist != [] && |s.hist| == |s.via| + 1 && |s.viaFrom| == |s.via|
    && s.threads[0].pc == pc && s.threads[0].call.Admitted? && !s.threads[0].call.probe
    && s.threads[1].pc == Calling(true)
    && Current(s).state.HalfOpen? && Current(s).successes == cfg.halfOpenSuccesses - 1
  }

  lemma OldCallBesideProbe(cfg: Config, n: nat) returns (s: State)
    requires Sane(cfg) && n >= 2
    ensures Besides(cfg, n, s, Calling(false))
  {
    var before := Probes(cfg, n, cfg.halfOpenSuccesses - 1);
    s := Enters(cfg, before, 1);
    InvReachable(cfg, s);
    TracedReachable(cfg, s);
    assert CallOk(s.hist, s.via, s.threads[1]);
  }

  lemma OldCallSucceeds(cfg: Config, n: nat, s: State) returns (s': State)
    requires Besides(cfg, n, s, Calling(false))
    ensures Besides(cfg, n, s', RecSwap(false, true, |s'.via|, Success))
  {
    Reaches(cfg, s, Return(0, Succeeded));
    s' := Apply(cfg, s, Return(0, Succeeded));
    Reaches(cfg, s', Move(0));
    s' := Apply(cfg, s', Move(0));
  }

  lemma OldCallFails(cfg: Config, n: nat, s: State) returns (s': State)
    requires Besides(cfg, n, s, Calling(false))
    ensures Besides(cfg, n, s', RecClock(false, |s'.via|))
  {
    Reaches(cfg, s, Return(0, Failed));
    s' := Apply(cfg, s, Return(0, Failed));
    Reaches(cfg, s', Move(0));
    s' := Apply(cfg, s', Move(0));
  }

  lemma OldCallTimed(cfg: Config, n: nat, s: State) returns (s': State)
    requires Besides(cfg, n, s, RecClock(false, |s.via|))
    ensures Besides(cfg, n, s', RecSwap(false, false, |s'.via|, Failure(s'.now)))
  {
    Reaches(cfg, s, Move(0));
    s' := Apply(cfg, s, Move(0));
  }

  /** The outcome of a call that is not a probe has replaced a half-open snapshot. */
  predicate StaleInstall(s: State, k: nat) {
    && k < |s.via| && k < |s.viaFrom| && k + 1 < |s.hist| && s.hist[k].state.HalfOpen?
    && (s.via[k].Success? || s.via[k].Failure?) && !(s.viaFrom[k].Admitted? && s.viaFrom[k].probe)
  }

  /** ... and has moved the breaker to another state. */
  predicate StaleExit(s: State, k: nat, state: Condition) {
    StaleInstall(s, k) && s.hist[k + 1].state == state
  }

  /** The old call of thread 0 returns before the probe. */
  lemma OldCallInstalls(cfg: Config, n: nat, s: State, ok: bool, op: Op) returns (s': State)
    requires Sane(cfg) && Besides(cfg, n, s, RecSwap(false, ok, |s.via|, op)) && (op.Success? || op.Failure?)
    ensures Reachable(cfg, s') && |s'.threads| == n && s'.threads[1].pc == Calling(true)
    ensures StaleExit(s', |s.via|, if op.Success? then Closed else Open)
  {
    Reaches(cfg, s, Move(0));
    s' := Apply(cfg, s, Move(0));
  }

  /** The half-open breaker is closed by the old call while the probe is still executing. */
  lemma OldCallCloses(cfg: Config, n: nat) returns (s: State, k: nat)
    requires Sane(cfg) && n >= 2
    ensures Reachable(cfg, s) && |s.threads| == n && s.threads[1].pc == Calling(true) && StaleExit(s, k, Closed)
  {
    s := OldCallBesideProbe(cfg, n);
    s := OldCallSucceeds(cfg, n, s);
    k := |s.via|;
    s := OldCallInstalls(cfg, n, s, true, Success);
  }

  lemma OldCallOpens(cfg: Config, n: nat) returns (s: State, k: nat)
    requires Sane(cfg) && n >= 2
    ensures Reachable(cfg, s) && |s.threads| == n && s.threads[1].pc == Calling(true) && StaleExit(s, k, Open)
  {
    s := OldCallBesideProbe(cfg, n);
    s := OldCallFails(cfg, n, s);
    s := OldCallTimed(cfg, n, s);
    k := |s.via|;
    s := OldCallInstalls(cfg, n, s, false, Failure(s.now));
  }

  // ----- One thread is not -----

  /** Thread `t` does not execute an old call in a half-open breaker. */
  predicate CalmThread(s: State, t: nat) {
    && s.hist != [] && t < |s.threads|
    && (InCall(s.threads[t].pc) && !s.threads[t].pc.probe ==> !Current(s).state.HalfOpen?)
  }

  /** A thread alone never executes a call admitted while closed in a half-open breaker. */
  ghost predicate Calm(s: State) {
    && |s.threads| <= 1 && s.hist != []
    && (forall t: nat :: t < |s.threads| ==> CalmThread(s, t))
    && (forall k: nat :: !StaleInstall(s, k))
  }

  lemma CalmAllow(cfg: Config, s: State, t: nat)
    requires s.hist != [] && t < |s.threads| && Allowing(s.threads[t].pc)
    ensures CalmThread(MoveAllow(cfg, s, t), t)
  {
  }

  lemma CalmRecord(cfg: Config, s: State, t: nat)
    requires CalmThread(s, t) && OutcomeOk(s.ops, s.threads[t])
    requires (Recording(s.threads[t].pc) || s.threads[t].pc.Releasing?)
    ensures CalmThread(MoveRecord(cfg, s, t), t)
  {
  }

  lemma CalmReset(cfg: Config, s: State, t: nat)
    requires CalmThread(s, t) && Resetting(s.threads[t].pc)
    ensures CalmThread(MoveReset(cfg, s, t), t)
  {
  }

  lemma CalmSelf(cfg: Config, s: State, a: Action)
    requires Enabled(s, a) && !a.Tick? && CalmThread(s, a.t) && OutcomeOk(s.ops, s.threads[a.t])
    ensures CalmThread(Apply(cfg, s, a), a.t)
  {
    if a.Move? {
      if Allowing(s.threads[a.t].pc) {
        CalmAllow(cfg, s, a.t);
      } else if Resetting(s.threads[a.t].pc) {
        CalmReset(cfg, s, a.t);
      } else {
        CalmRecord(cfg, s, a.t);
      }
    }
  }

  lemma CalmInstalls(s: State, s': State, t: nat)
    requires Installs(s, s', t) && CalmThread(s, t) && CallOk(s.hist, s.via, s.threads[t])
    requires forall k: nat :: !StaleInstall(s, k)
    ensures forall k: nat :: !StaleInstall(s', k)
  {
    forall k: nat
      ensures !StaleInstall(s', k)
    {
      assert !StaleInstall(s, k);
    }
  }

  lemma CalmKept(cfg: Config, s: State, a: Action)
    requires Inv(cfg, s) && Traced(s) && Calm(s) && Enabled(s, a)
    ensures Calm(Apply(cfg, s, a))
  {
    var s' := Apply(cfg, s, a);
    if a.Tick? {
      forall k: nat ensures !StaleInstall(s', k) {
        assert !StaleInstall(s, k);
      }
      assert forall t: nat :: t < |s.threads| ==> CalmThread(s, t);
      assert forall t: nat :: CalmThread(s', t) == CalmThread(s, t);
    } else {
      CalmSelf(cfg, s, a);
      StepInstalls(cfg, s, a);
      CalmInstalls(s, s', a.t);
      StepGrows(cfg, s, a);
      assert a.t == 0;
    }
  }

  lemma CalmStep(cfg: Config, run: seq<State>, i: nat)
    requires IsRun(cfg, run) && i + 1 < |run| && Calm(run[i])
    ensures Calm(run[i + 1])
  {
    var s, s' := run[i], run[i + 1];
    InvAlways(cfg, run, i);
    TracedAlways(cfg, run, i);
    assert StepAt(cfg, run, i);
    var a :| Enabled(s, a) && Apply(cfg, s, a) == s';
    CalmKept(cfg, s, a);
  }

  lemma CalmStart(cfg: Config, run: seq<State>)
    requires IsRun(cfg, run) && |run[0].threads| <= 1
    ensures Calm(run[0])
  {
  }

  lemma {:induction false} CalmAlways(cfg: Config, run: seq<State>, i: nat)
    requires IsRun(cfg, run) && i < |run| && |run[0].threads| <= 1
    ensures Calm(run[i])
  {
    if i == 0 {
      CalmStart(cfg, run);
    } else {
      CalmAlways(cfg, run, i - 1);
      CalmStep(cfg, run, i - 1);
    }
  }

  lemma SameThreadsStep(cfg: Config, s: State, s': State)
    requires Step(cfg, s, s') && Inv(cfg, s)
    ensures |s'.threads| == |s.threads|
  {
    var a :| Enabled(s, a) && Apply(cfg, s, a) == s';
    if !a.Tick? {
      StepGrows(cfg, s, a);
    }
  }

  lemma {:induction false} SameThreads(cfg: Config, run: seq<State>, i: nat)
    requires IsRun(cfg, run) && i < |run|
    ensures |run[i].threads| == |run[0].threads|
  {
    if i > 0 {
      SameThreads(cfg, run, i - 1);
      InvAlways(cfg, run, i - 1);
      assert StepAt(cfg, run, i - 1);
      SameThreadsStep(cfg, run[i - 1], run[i]);
    }
  }

  lemma AloneIsCalm(cfg: Config, s: State)
    requires Reachable(cfg, s) && |s.threads| <= 1
    ensures Calm(s)
  {
    var run :| IsRun(cfg, run) && run[|run| - 1] == s;
    SameThreads(cfg, run, |run| - 1);
    CalmAlways(cfg, run, |run| - 1);
  }

  // ----- Exactly when -----

  /** In some run of `n` threads an outcome that is not a probe's replaces a half-open snapshot. */
  ghost predicate CanCountStale(cfg: Config, n: nat) {
    exists s: State, k: nat :: Reachable(cfg, s) && |s.threads| == n && StaleInstall(s, k)
  }

  /** ... and moves the breaker to `state`. */
  ghost predicate CanExitStale(cfg: Config, n: nat, state: Condition) {
    exists s: State, k: nat :: Reachable(cfg, s) && |s.threads| == n && StaleExit(s, k, state)
  }

  lemma AloneCountsProbes(cfg: Config, n: nat)
    requires n <= 1
    ensures !CanCountStale(cfg, n)
  {
    forall s: State, k: nat | Reachable(cfg, s) && |s.threads| == n
      ensures !StaleInstall(s, k)
    {
      AloneIsCalm(cfg, s);
    }
  }

  /** A breaker used by `n` threads can count an outcome that is not a probe's while half-open, can be closed by one,
      and can be re-opened by one, if and only if there are at least two threads; whatever its settings. */
  lemma StaleExactly(cfg: Config, n: nat)
    requires Sane(cfg)
    ensures CanCountStale(cfg, n) <==> n >= 2
    ensures CanExitStale(cfg, n, Closed) <==> n >= 2
    ensures CanExitStale(cfg, n, Open) <==> n >= 2
  {
    if n >= 2 {
      var closed, k := OldCallCloses(cfg, n);
      var open, j := OldCallOpens(cfg, n);
      assert StaleInstall(closed, k) && StaleExit(open, j, Open);
    } else {
      AloneCountsProbes(cfg, n);
    }
  }
}
