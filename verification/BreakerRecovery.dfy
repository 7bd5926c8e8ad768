/** Recovery: from every quiescent reachable state, once the cooldown is over, enough successful calls made one after
    the other are all admitted and close the breaker. */
module BreakerRecovery {
  import opened BreakerSpec
  import opened BreakerMachine
  import opened BreakerInvariant
  import opened BreakerSafety

  /** Thread `t` moves until it has to wait for its protected function, or is done; at most `n` times. */
  function MoveOn(cfg: Config, s: State, t: nat, n: nat): State
    requires s.hist != []
    decreases n
  {
    if n == 0 || !Enabled(s, Move(t)) || Apply(cfg, s, Move(t)).hist == [] then s
    else MoveOn(cfg, Apply(cfg, s, Move(t)), t, n - 1)
  }

  /** The two halves of a call of thread `t` while nobody else moves: its admission, and what follows when the protected
      function has returned.  Neither takes more than four steps. */
  function Enter(cfg: Config, s: State, t: nat): State
    requires s.hist != [] && Enabled(s, Call(t))
  {
    MoveOn(cfg, Apply(cfg, s, Call(t)), t, 4)
  }

  function Completion(cfg: Config, s: State, t: nat, outcome: Outcome): State
    requires s.hist != [] && Enabled(s, Return(t, outcome))
  {
    MoveOn(cfg, Apply(cfg, s, Return(t, outcome)), t, 4)
  }

  /** The snapshot a call sees after its admission. */
  function SeenBy(cfg: Config, cur: Snapshot, at: int): Snapshot {
    if cur.state.Open? then Next(cfg, cur, Probe(at)) else cur
  }

  /** The operation that records an outcome. */
  function OpOf(outcome: Outcome, at: int): Op {
    if outcome.Succeeded? then Success else Failure(at)
  }

  /** Nobody but `t` has moved, and no time has passed. */
  ghost predicate Beside(s: State, s': State, t: nat) {
    && t < |s.threads| == |s'.threads| && s'.threads == s.threads[t := s'.threads[t]]
    && s.hist != [] && s'.hist != [] && s'.now == s.now
  }

  lemma SoloAdmission(cfg: Config, s: State, t: nat)
    requires s.hist != [] && t < |s.threads| && s.threads[t].pc.Idle? && !s.probing
    requires Current(s).state.Open? ==> CooledDown(cfg, Current(s), s.now)
    ensures var a := Enter(cfg, s, t);
            && Beside(s, a, t) && a.threads[t].pc.Calling? && a.probing == a.threads[t].pc.probe
            && Current(a) == SeenBy(cfg, Current(s), s.now)
            && a.threads[t].call == Admitted(!Current(s).state.Closed?, |a.hist| - 1)
  {
    var s0 := Apply(cfg, s, Call(t));
    var s1 := Apply(cfg, s0, Move(t));
    if !Current(s).state.Closed? {
      var s2 := Apply(cfg, s1, Move(t));
      assert MoveOn(cfg, s0, t, 4) == MoveOn(cfg, s1, t, 3) == MoveOn(cfg, s2, t, 2);
      var s3 := Apply(cfg, s2, Move(t));
      assert MoveOn(cfg, s2, t, 2) == MoveOn(cfg, s3, t, 1);
    }
  }

  /** About to release the slot, with the outcome recorded. */
  lemma SoloRelease(cfg: Config, s: State, t: nat, n: nat)
    requires s.hist != [] && t < |s.threads| && s.threads[t].pc.Releasing? && s.probing == s.threads[t].pc.probe
    requires n >= 1
    ensures var c := MoveOn(cfg, s, t, n);
            Beside(s, c, t) && c.threads[t].pc.Idle? && !c.probing && c.hist == s.hist
  {
    assert MoveOn(cfg, s, t, n) == MoveOn(cfg, Apply(cfg, s, Move(t)), t, n - 1);
  }

  /** The state in which a solo call has just ended. */
  ghost predicate Completed(cfg: Config, s: State, t: nat, op: Op, c: State) {
    && Beside(s, c, t) && c.threads[t].pc.Idle? && !c.probing && Current(c) == Next(cfg, Current(s), op)
  }

  lemma SoloSwap(cfg: Config, s: State, t: nat, n: nat)
    requires s.hist != [] && t < |s.threads| && s.threads[t].pc.RecSwap? && s.probing == s.threads[t].pc.probe && n >= 2
    requires s.threads[t].pc.i == |s.hist| - 1
    ensures Completed(cfg, s, t, s.threads[t].pc.op, MoveOn(cfg, s, t, n))
  {
    var s1 := Apply(cfg, s, Move(t));
    assert MoveOn(cfg, s, t, n) == MoveOn(cfg, s1, t, n - 1);
    SoloRelease(cfg, s1, t, n - 1);
  }

  /** About to record an outcome; `n` moves are enough. */
  ghost predicate Records(s: State, t: nat, ok: bool, n: nat) {
    && s.hist != [] && t < |s.threads| && s.threads[t].pc.RecLoad? && s.threads[t].pc.ok == ok
    && s.probing == s.threads[t].pc.probe && n >= 4
  }

  lemma SoloSuccess(cfg: Config, s: State, t: nat, n: nat)
    requires Records(s, t, true, n)
    ensures Completed(cfg, s, t, Success, MoveOn(cfg, s, t, n))
  {
    var s1 := Apply(cfg, s, Move(t));
    assert MoveOn(cfg, s, t, n) == MoveOn(cfg, s1, t, n - 1);
    if Ignored(Current(s), true) {
      SoloRelease(cfg, s1, t, n - 1);
    } else {
      SoloSwap(cfg, s1, t, n - 1);
    }
  }

  /** The failure is about to be installed, or its clock reading is still to be taken. */
  lemma FailureLoaded(cfg: Config, s: State, t: nat, n: nat)
    requires Records(s, t, false, n) && !Current(s).state.Open?
    ensures var s1 := Apply(cfg, s, Move(t));
            && MoveOn(cfg, s, t, n) == MoveOn(cfg, s1, t, n - 1)
            && (s1 == Goto(s, t, RecClock(s.threads[t].pc.probe, |s.hist| - 1))
                || s1 == Goto(s, t, RecSwap(s.threads[t].pc.probe, false, |s.hist| - 1, Failure(s.now))))
  {
  }

  lemma FailureTimed(cfg: Config, s: State, t: nat, n: nat)
    requires s.hist != [] && t < |s.threads| && s.threads[t].pc.RecClock? && s.probing == s.threads[t].pc.probe
    requires n >= 3
    requires s.threads[t].pc.i == |s.hist| - 1
    ensures Completed(cfg, s, t, Failure(s.now), MoveOn(cfg, s, t, n))
  {
    var s1 := Apply(cfg, s, Move(t));
    assert MoveOn(cfg, s, t, n) == MoveOn(cfg, s1, t, n - 1);
    SoloSwap(cfg, s1, t, n - 1);
  }

  /** A step that only moves the thread does not matter to the call's result. */
  lemma CompletedVia(cfg: Config, s: State, t: nat, pc: Pc, op: Op, c: State)
    requires s.hist != [] && t < |s.threads| && Completed(cfg, Goto(s, t, pc), t, op, c)
    ensures Completed(cfg, s, t, op, c)
  {
  }

  lemma SoloFailure(cfg: Config, s: State, t: nat, n: nat)
    requires Records(s, t, false, n) && !Current(s).state.Open?
    ensures Completed(cfg, s, t, Failure(s.now), MoveOn(cfg, s, t, n))
  {
    FailureLoaded(cfg, s, t, n);
    var s1 := Apply(cfg, s, Move(t));
    if s1.threads[t].pc.RecClock? {
      FailureTimed(cfg, s1, t, n - 1);
    } else {
      SoloSwap(cfg, s1, t, n - 1);
    }
    CompletedVia(cfg, s, t, s1.threads[t].pc, Failure(s.now), MoveOn(cfg, s1, t, n - 1));
  }

  lemma SoloCompletion(cfg: Config, s: State, t: nat, outcome: Outcome)
    requires s.hist != [] && t < |s.threads| && s.threads[t].pc.Calling? && s.probing == s.threads[t].pc.probe
    requires !outcome.Neutral? && !Current(s).state.Open?
    ensures Completed(cfg, s, t, OpOf(outcome, s.now), Completion(cfg, s, t, outcome))
  {
    var s0 := Apply(cfg, s, Return(t, outcome));
    if outcome.Succeeded? {
      SoloSuccess(cfg, s0, t, 4);
    } else {
      SoloFailure(cfg, s0, t, 4);
    }
  }

  /** A call of thread `t` that is admitted and returns takes the breaker from `s` to `c`. */
  ghost predicate OneCall(cfg: Config, s: State, t: nat, outcome: Outcome, c: State) {
    && s.hist != [] && Enabled(s, Call(t))
    && var a := Enter(cfg, s, t);
    && a.hist != [] && Enabled(a, Return(t, outcome)) // the call is admitted
    && c == Completion(cfg, a, t, outcome)
  }

  /** Consecutive calls of thread `t`, all admitted and successful. */
  ghost predicate Calls(cfg: Config, t: nat, chain: seq<State>) {
    forall i :: 0 <= i < |chain| - 1 ==> OneCall(cfg, chain[i], t, Succeeded, chain[i + 1])
  }

  /** Thread `t` may call and nobody holds the slot.  Other calls may be in progress, as long as they are not probes. */
  ghost predicate Resting(s: State, t: nat) {
    s.hist != [] && t < |s.threads| && s.threads[t].pc.Idle? && !s.probing
  }

  lemma SoloCall(cfg: Config, s: State, t: nat, outcome: Outcome) returns (c: State)
    requires Resting(s, t) && (Current(s).state.Open? ==> CooledDown(cfg, Current(s), s.now)) && !outcome.Neutral?
    ensures OneCall(cfg, s, t, outcome, c) && Resting(c, t) && Beside(s, c, t)
    ensures Current(c) == Next(cfg, SeenBy(cfg, Current(s), s.now), OpOf(outcome, s.now))
  {
    SoloAdmission(cfg, s, t);
    var a := Enter(cfg, s, t);
    SoloCompletion(cfg, a, t, outcome);
    c := Completion(cfg, a, t, outcome);
  }

  /** How many more successes a breaker needs to be closed without failures. */
  function Needed(cfg: Config, cur: Snapshot): int {
    match cur.state
    case Closed => if cur.failures == 0 then 0 else 1
    case HalfOpen => cfg.halfOpenSuccesses - cur.successes
    case Open => cfg.halfOpenSuccesses
  }

  /** Every admitted success brings the breaker one step closer. */
  lemma NeededDrops(cfg: Config, cur: Snapshot, at: int, n: nat)
    requires Sane(cfg) && Shape(cfg, cur) && n >= 1 && n >= Needed(cfg, cur)
    ensures var next := OnSuccess(cfg, SeenBy(cfg, cur, at));
            Shape(cfg, next) && !next.state.Open? && n - 1 >= Needed(cfg, next)
  {
  }

  /** `n` successes are enough. */
  ghost predicate Recovering(cfg: Config, s: State, t: nat, n: nat) {
    && Resting(s, t) && Shape(cfg, Current(s)) && n >= Needed(cfg, Current(s))
    && (Current(s).state.Open? ==> CooledDown(cfg, Current(s), s.now))
  }

  /** One more call of a breaker that needs at most `n` successes. */
  lemma SoloStep(cfg: Config, s: State, t: nat, n: nat) returns (c: State)
    requires Sane(cfg) && Recovering(cfg, s, t, n) && n >= 1
    ensures OneCall(cfg, s, t, Succeeded, c) && Recovering(cfg, c, t, n - 1)
  {
    NeededDrops(cfg, Current(s), s.now, n);
    c := SoloCall(cfg, s, t, Succeeded);
  }

  lemma CallsCons(cfg: Config, t: nat, s: State, rest: seq<State>)
    requires Calls(cfg, t, rest) && rest != [] && OneCall(cfg, s, t, Succeeded, rest[0])
    ensures Calls(cfg, t, [s] + rest)
  {
    var chain := [s] + rest;
    forall i | 0 <= i < |chain| - 1
      ensures OneCall(cfg, chain[i], t, Succeeded, chain[i + 1])
    {
      if i > 0 {
        assert OneCall(cfg, rest[i - 1], t, Succeeded, rest[i - 1 + 1]);
      }
    }
  }

  lemma {:induction false} SoloRecovery(cfg: Config, s: State, t: nat, n: nat) returns (chain: seq<State>)
    requires Sane(cfg) && Recovering(cfg, s, t, n)
    ensures |chain| == n + 1 && chain[0] == s && Calls(cfg, t, chain) && Recovering(cfg, chain[n], t, 0)
    decreases n
  {
    chain := [s];
    if n > 0 {
      var c := SoloStep(cfg, s, t, n);
      var rest := SoloRecovery(cfg, c, t, n - 1);
      CallsCons(cfg, t, s, rest);
      chain := [s] + rest;
    }
  }

  /** Recovery of the lock-free breaker, from every reachable state in which no thread owns the probe slot, for example
      when no call is in progress.  Calls that are not probes may be in progress; they do not return meanwhile. */
  lemma Recovery(cfg: Config, s: State, t: nat) returns (chain: seq<State>)
    requires Sane(cfg) && Reachable(cfg, s) && t < |s.threads| && s.threads[t].pc.Idle?
    requires forall u :: 0 <= u < |s.threads| ==> !Owns(s.threads[u].pc)
    requires s.hist != [] && (Current(s).state.Open? ==> s.now >= Current(s).lastFailedAt + cfg.resetTimeout)
    ensures |chain| == cfg.halfOpenSuccesses + 1 && chain[0] == s && Calls(cfg, t, chain)
    ensures var last := chain[cfg.halfOpenSuccesses];
            last.hist != [] && Current(last).state.Closed? && Current(last).failures == 0
  {
    InvReachable(cfg, s);
    SlotOwnership(cfg, s);
    ShapeAlways(cfg, s.hist, s.via, |s.hist| - 1);
    chain := SoloRecovery(cfg, s, t, cfg.halfOpenSuccesses);
  }
}
