/** What becomes of a protected call in the lock-free breaker: what is recorded for it, and on which snapshots. */
module BreakerOutcome {
  import opened BreakerSpec
  import opened BreakerMachine
  import opened BreakerInvariant
  import opened BreakerSafety
  import opened Options

  /** The call has been admitted and not yet left `Execute`. */
  predicate InCall(pc: Pc) { pc.Calling? || Recording(pc) || pc.Releasing? }

  /** A neutral outcome is not recorded, any other as what it is. */
  ghost predicate Logs(ops: seq<Op>, logged: Recorded, outcome: Outcome) {
    match outcome
    case Neutral => logged.NotRecorded?
    case Succeeded => logged.RecordedAt? && logged.pos < |ops| && ops[logged.pos].Success?
    case Failed => logged.RecordedAt? && logged.pos < |ops| && ops[logged.pos].Failure?
  }

  /** What is being recorded, or has been recorded, is what the protected function did. */
  ghost predicate OutcomeOk(ops: seq<Op>, th: Thread) {
    match th.pc
    case RecLoad(_, ok) => th.outcome == Some(if ok then Succeeded else Failed)
    case RecClock(_, _) => th.outcome == Some(Failed)
    case RecSwap(_, ok, _, op) =>
      th.outcome == Some(if ok then Succeeded else Failed) && (if ok then op.Success? else op.Failure?)
    case Releasing(_, logged) => th.outcome.Some? && Logs(ops, logged, th.outcome.value)
    case _ => true
  }

  /** No breaker was half-opened between the installs `lo` and `hi`. */
  ghost predicate NoProbe(via: seq<Op>, lo: nat, hi: nat) {
    forall k :: lo <= k < hi && k < |via| ==> !via[k].Probe?
  }

  /** A call in progress was admitted on a snapshot of the right state, and nobody has half-opened the breaker since the
      admission of a probe. */
  ghost predicate CallOk(hist: seq<Snapshot>, via: seq<Op>, th: Thread) {
    InCall(th.pc) ==> AdmittedOn(hist, th.pc.probe, th.call) && (th.pc.probe ==> NoProbe(via, th.call.seen, |via|))
  }

  /** Whose outcome was installed. */
  ghost predicate FromOk(hist: seq<Snapshot>, via: seq<Op>, from': Admission, k: nat) {
    k < |via| && (via[k].Success? || via[k].Failure?) ==>
      && from'.Admitted? && from'.seen <= k && AdmittedOn(hist, from'.probe, from')
      && (from'.probe ==> NoProbe(via, from'.seen, k))
  }

  ghost predicate InstallsOk(hist: seq<Snapshot>, via: seq<Op>, viaFrom: seq<Admission>) {
    |viaFrom| == |via| && forall k: nat :: k < |via| ==> FromOk(hist, via, viaFrom[k], k)
  }

  /** What every reachable state satisfies besides `Inv`. */
  ghost predicate Traced(s: State) {
    && InstallsOk(s.hist, s.via, s.viaFrom)
    && forall t :: 0 <= t < |s.threads| ==> OutcomeOk(s.ops, s.threads[t]) && CallOk(s.hist, s.via, s.threads[t])
  }

  // ----- Every step keeps it -----

  ghost predicate InstallsOne(s: State, s': State, t: nat, op: Op) {
    && t < |s.threads| && |s'.hist| == |s.hist| + 1 && s'.hist[..|s.hist|] == s.hist
    && s'.via == s.via + [op] && s'.viaFrom == s.viaFrom + [s.threads[t].call]
    && (op.Probe? ==> s.threads[t].pc.AllowSwap?)
    && (op.Success? || op.Failure? ==> s.threads[t].pc.RecSwap?)
  }

  /** A step of thread `t` adds at most one install, made for its own call. */
  ghost predicate Installs(s: State, s': State, t: nat) {
    && t < |s.threads| && |s.hist| == |s.via| + 1 && |s.viaFrom| == |s.via|
    && (|| (s'.hist == s.hist && s'.via == s.via && s'.viaFrom == s.viaFrom)
        || (exists op :: InstallsOne(s, s', t, op)))
  }

  lemma AllowInstalls(cfg: Config, s: State, t: nat)
    requires |s.hist| == |s.via| + 1 && |s.viaFrom| == |s.via| && Enabled(s, Move(t)) && Allowing(s.threads[t].pc)
    ensures Installs(s, MoveAllow(cfg, s, t), t)
  {
    var pc := s.threads[t].pc;
    if pc.AllowSwap? && pc.i == |s.hist| - 1 {
      assert InstallsOne(s, MoveAllow(cfg, s, t), t, Probe(pc.at));
    } else {
      AllowChangesNothing(cfg, s, t);
    }
  }

  lemma RecordInstalls(cfg: Config, s: State, t: nat)
    requires |s.hist| == |s.via| + 1 && |s.viaFrom| == |s.via| && Enabled(s, Move(t))
    requires !Allowing(s.threads[t].pc) && !Resetting(s.threads[t].pc) && OutcomeOk(s.ops, s.threads[t])
    ensures Installs(s, MoveRecord(cfg, s, t), t)
  {
    var pc := s.threads[t].pc;
    if pc.RecSwap? && pc.i == |s.hist| - 1 {
      assert InstallsOne(s, MoveRecord(cfg, s, t), t, pc.op);
    }
  }

  lemma ResetInstalls(cfg: Config, s: State, t: nat)
    requires |s.hist| == |s.via| + 1 && |s.viaFrom| == |s.via| && Enabled(s, Move(t)) && Resetting(s.threads[t].pc)
    ensures Installs(s, MoveReset(cfg, s, t), t)
  {
    var pc := s.threads[t].pc;
    if pc.ResetSwap? && pc.i == |s.hist| - 1 {
      assert InstallsOne(s, MoveReset(cfg, s, t), t, Reset);
    }
  }

  lemma StepInstalls(cfg: Config, s: State, a: Action)
    requires |s.hist| == |s.via| + 1 && |s.viaFrom| == |s.via| && Enabled(s, a) && !a.Tick?
    requires OutcomeOk(s.ops, s.threads[a.t])
    ensures Installs(s, Apply(cfg, s, a), a.t)
  {
    if a.Move? {
      if Allowing(s.threads[a.t].pc) {
        AllowInstalls(cfg, s, a.t);
      } else if Resetting(s.threads[a.t].pc) {
        ResetInstalls(cfg, s, a.t);
      } else {
        RecordInstalls(cfg, s, a.t);
      }
    }
  }

  lemma OutcomeRecord(cfg: Config, s: State, t: nat)
    requires s.hist != [] && t < |s.threads| && (Recording(s.threads[t].pc) || s.threads[t].pc.Releasing?)
    requires OutcomeOk(s.ops, s.threads[t])
    ensures var s' := MoveRecord(cfg, s, t); |s'.threads| == |s.threads| && OutcomeOk(s'.ops, s'.threads[t])
  {
  }

  lemma OutcomeSelf(cfg: Config, s: State, a: Action)
    requires s.hist != [] && Enabled(s, a) && !a.Tick? && OutcomeOk(s.ops, s.threads[a.t])
    ensures var s' := Apply(cfg, s, a); |s'.threads| == |s.threads| && OutcomeOk(s'.ops, s'.threads[a.t])
  {
    if a.Move? && !Allowing(s.threads[a.t].pc) && !Resetting(s.threads[a.t].pc) {
      OutcomeRecord(cfg, s, a.t);
    }
  }

  lemma CallAllow(cfg: Config, s: State, t: nat)
    requires |s.hist| == |s.via| + 1 && t < |s.threads| && Allowing(s.threads[t].pc)
    ensures var s' := MoveAllow(cfg, s, t); |s'.threads| == |s.threads| && CallOk(s'.hist, s'.via, s'.threads[t])
  {
  }

  lemma CallRecord(cfg: Config, s: State, t: nat)
    requires |s.hist| == |s.via| + 1 && t < |s.threads| && (Recording(s.threads[t].pc) || s.threads[t].pc.Releasing?)
    requires CallOk(s.hist, s.via, s.threads[t])
    requires s.threads[t].pc.RecSwap? ==> !s.threads[t].pc.op.Probe?
    ensures var s' := MoveRecord(cfg, s, t); |s'.threads| == |s.threads| && CallOk(s'.hist, s'.via, s'.threads[t])
  {
  }

  lemma CallSelfOk(cfg: Config, s: State, a: Action)
    requires |s.hist| == |s.via| + 1 && Enabled(s, a) && !a.Tick?
    requires CallOk(s.hist, s.via, s.threads[a.t]) && OutcomeOk(s.ops, s.threads[a.t])
    ensures var s' := Apply(cfg, s, a); |s'.threads| == |s.threads| && CallOk(s'.hist, s'.via, s'.threads[a.t])
  {
    if a.Move? {
      if Allowing(s.threads[a.t].pc) {
        CallAllow(cfg, s, a.t);
      } else if !Resetting(s.threads[a.t].pc) {
        CallRecord(cfg, s, a.t);
      }
    }
  }

  /** Another thread's call: only the owner of the slot half-opens the breaker. */
  lemma OtherTraced(s: State, s': State, t: nat, u: nat)
    requires Installs(s, s', t) && u < |s.threads| && u != t && s.ops <= s'.ops
    requires OutcomeOk(s.ops, s.threads[u]) && CallOk(s.hist, s.via, s.threads[u])
    requires Owns(s.threads[t].pc) ==> !Owns(s.threads[u].pc)
    ensures OutcomeOk(s'.ops, s.threads[u]) && CallOk(s'.hist, s'.via, s.threads[u])
  {
  }

  lemma InstallsKept(s: State, s': State, t: nat)
    requires Installs(s, s', t) && InstallsOk(s.hist, s.via, s.viaFrom) && CallOk(s.hist, s.via, s.threads[t])
    ensures InstallsOk(s'.hist, s'.via, s'.viaFrom)
  {
    forall k: nat | k < |s'.via|
      ensures FromOk(s'.hist, s'.via, s'.viaFrom[k], k)
    {
      if k < |s.via| {
        assert FromOk(s.hist, s.via, s.viaFrom[k], k);
      }
    }
  }

  lemma ThreadsTraced(s: State, s': State, t: nat)
    requires Installs(s, s', t) && UsesSlot(s, s', t) && s.ops <= s'.ops && SlotOk(s.probing, s.threads)
    requires forall u :: 0 <= u < |s.threads| ==> OutcomeOk(s.ops, s.threads[u]) && CallOk(s.hist, s.via, s.threads[u])
    requires OutcomeOk(s'.ops, s'.threads[t]) && CallOk(s'.hist, s'.via, s'.threads[t])
    ensures forall u :: 0 <= u < |s'.threads| ==>
              OutcomeOk(s'.ops, s'.threads[u]) && CallOk(s'.hist, s'.via, s'.threads[u])
  {
    forall u | 0 <= u < |s'.threads| && u != t
      ensures OutcomeOk(s'.ops, s'.threads[u]) && CallOk(s'.hist, s'.via, s'.threads[u])
    {
      OtherTraced(s, s', t, u);
    }
  }

  lemma TracedKept(cfg: Config, s: State, a: Action)
    requires Inv(cfg, s) && Traced(s) && Enabled(s, a)
    ensures Traced(Apply(cfg, s, a))
  {
    if !a.Tick? {
      var s', t := Apply(cfg, s, a), a.t;
      StepInstalls(cfg, s, a);
      InstallsKept(s, s', t);
      OutcomeSelf(cfg, s, a);
      CallSelfOk(cfg, s, a);
      StepGrows(cfg, s, a);
      ThreadsTraced(s, s', t);
    }
  }

  lemma TracedStep(cfg: Config, s: State, s': State)
    requires Step(cfg, s, s') && Inv(cfg, s) && Traced(s)
    ensures Traced(s')
  {
    var a :| Enabled(s, a) && Apply(cfg, s, a) == s';
    TracedKept(cfg, s, a);
  }

  lemma {:induction false} TracedAlways(cfg: Config, run: seq<State>, i: nat)
    requires IsRun(cfg, run) && i < |run|
    ensures Traced(run[i])
  {
    if i > 0 {
      TracedAlways(cfg, run, i - 1);
      InvAlways(cfg, run, i - 1);
      assert StepAt(cfg, run, i - 1);
      TracedStep(cfg, run[i - 1], run[i]);
    }
  }

  lemma TracedReachable(cfg: Config, s: State)
    requires Reachable(cfg, s)
    ensures Traced(s)
  {
    var run :| IsRun(cfg, run) && run[|run| - 1] == s;
    TracedAlways(cfg, run, |run| - 1);
  }

  // ----- What follows -----

  lemma RecordHistory(cfg: Config, s: State, t: nat)
    requires s.hist != [] && t < |s.threads| && (Recording(s.threads[t].pc) || s.threads[t].pc.Releasing?)
    ensures var th := s.threads[t];
            var th' := MoveRecord(cfg, s, t).threads[t];
            |MoveRecord(cfg, s, t).threads| == |s.threads| && th'.call == th.call && th'.outcome == th.outcome
  {
  }

  lemma OthersHistory(cfg: Config, s: State, a: Action, t: nat)
    requires Reachable(cfg, s) && s.hist != [] && Enabled(s, a) && !a.Tick? && a.t != t && t < |s.threads|
    ensures |Apply(cfg, s, a).threads| == |s.threads| && Apply(cfg, s, a).threads[t] == s.threads[t]
  {
    InvReachable(cfg, s);
    StepGrows(cfg, s, a);
  }

  /** The recorded history of a call is its own: how it returned is what its `Return` said, and neither that nor its
      admission changes until it has left. */
  lemma CallHistory(cfg: Config, s: State, a: Action, t: nat)
    requires Reachable(cfg, s) && s.hist != [] && Enabled(s, a) && t < |s.threads| && InCall(s.threads[t].pc)
    ensures |Apply(cfg, s, a).threads| == |s.threads|
    ensures Apply(cfg, s, a).threads[t].call == s.threads[t].call
    ensures Apply(cfg, s, a).threads[t].outcome ==
            if a.Return? && a.t == t then Some(a.outcome) else s.threads[t].outcome
  {
    if a.Tick? {
    } else if a.t != t {
      OthersHistory(cfg, s, a, t);
    } else if a.Move? {
      RecordHistory(cfg, s, t);
    }
  }

  lemma AllowAdmits(cfg: Config, s: State, t: nat)
    requires s.hist != [] && t < |s.threads| && Allowing(s.threads[t].pc)
    ensures var s' := MoveAllow(cfg, s, t);
            && |s'.threads| == |s.threads| && s'.hist != [] && s'.threads[t].outcome == s.threads[t].outcome
            && (s'.threads[t].pc.Calling? ==>
                  && s'.threads[t].call == Admitted(s'.threads[t].pc.probe, |s'.hist| - 1)
                  && Current(s').state == (if s'.threads[t].pc.probe then HalfOpen else Closed))
            && (InCall(s'.threads[t].pc) ==> s'.threads[t].pc.Calling?)
  {
  }

  lemma OthersStayOut(cfg: Config, s: State, t: nat)
    requires s.hist != [] && t < |s.threads| && !Allowing(s.threads[t].pc) && !InCall(s.threads[t].pc)
    requires Enabled(s, Move(t))
    ensures |Apply(cfg, s, Move(t)).threads| == |s.threads| && !InCall(Apply(cfg, s, Move(t)).threads[t].pc)
  {
  }

  /** A call is admitted by a step of `allow`, on the snapshot that is current after it, and has no outcome yet. */
  lemma AdmissionHistory(cfg: Config, s: State, a: Action, t: nat)
    requires Reachable(cfg, s) && s.hist != [] && Enabled(s, a) && t < |s.threads| && !InCall(s.threads[t].pc)
    requires t < |Apply(cfg, s, a).threads| && InCall(Apply(cfg, s, a).threads[t].pc)
    ensures a == Move(t) && Allowing(s.threads[t].pc) && Apply(cfg, s, a).hist != []
    ensures var s' := Apply(cfg, s, a);
            var th := s'.threads[t];
            && th.pc.Calling? && th.call == Admitted(th.pc.probe, |s'.hist| - 1)
            && Current(s').state == (if th.pc.probe then HalfOpen else Closed)
            && th.outcome == s.threads[t].outcome
  {
    InvReachable(cfg, s);
    if !a.Tick? && a.t != t {
      OthersHistory(cfg, s, a, t);
    } else if a.Move? && Allowing(s.threads[t].pc) {
      AllowAdmits(cfg, s, t);
    } else if a.Move? {
      OthersStayOut(cfg, s, t);
    }
  }

  /** When a call releases, its outcome has been recorded exactly once since the protected function returned, as a
      success or a failure according to what the function did; a neutral outcome has not been recorded at all. */
  lemma RecordedOnceBeforeRelease(cfg: Config, s: State, t: nat)
    requires Reachable(cfg, s) && t < |s.threads| && s.threads[t].pc.Releasing?
    ensures |s.opsBy| == |s.ops| && s.threads[t].outcome.Some? && s.threads[t].opsBegun <= |s.ops|
    ensures var mine := set p | s.threads[t].opsBegun <= p < |s.ops| && s.opsBy[p] == t;
            match s.threads[t].outcome.value
            case Neutral => mine == {}
            case Succeeded => exists p :: mine == {p} && s.ops[p].Success?
            case Failed => exists p :: mine == {p} && s.ops[p].Failure?
  {
    InvReachable(cfg, s);
    TracedReachable(cfg, s);
    assert ThreadOk(cfg, s.hist, s.viaBy, s.ops, s.opsBy, s.now, t, s.threads[t]);
    var mine := set p | s.threads[t].opsBegun <= p < |s.ops| && s.opsBy[p] == t;
    if s.threads[t].pc.logged.RecordedAt? {
      var pos := s.threads[t].pc.logged.pos;
      forall p | s.threads[t].opsBegun <= p < |s.ops|
        ensures s.opsBy[p] == t <==> p == pos
      {
        assert p < pos ==> s.opsBy[..pos][p] == s.opsBy[p];
      }
      assert mine == {pos};
    }
  }

  /** The time of a failure that is being or has been recorded was read not before `lo`. */
  ghost predicate Timed(s: State, t: nat, lo: int)
    requires t < |s.threads|
  {
    lo <= s.now && match s.threads[t].pc
                   case RecSwap(_, _, _, op) => op.Failure? ==> lo <= op.at <= s.now
                   case Releasing(_, logged) =>
                     logged.RecordedAt? && logged.pos < |s.ops| && s.ops[logged.pos].Failure? ==>
                       lo <= s.ops[logged.pos].at <= s.now
                   case _ => true
  }

  lemma TimedRecord(cfg: Config, s: State, t: nat, lo: int)
    requires s.hist != [] && t < |s.threads| && (Recording(s.threads[t].pc) || s.threads[t].pc.Releasing?)
    requires Timed(s, t, lo)
    ensures |MoveRecord(cfg, s, t).threads| == |s.threads| && Timed(MoveRecord(cfg, s, t), t, lo)
  {
  }

  lemma TimedOther(s: State, s': State, t: nat, lo: int)
    requires t < |s.threads| == |s'.threads| && s'.threads[t] == s.threads[t] && s.ops <= s'.ops && s.now <= s'.now
    requires OutcomeOk(s.ops, s.threads[t]) && Timed(s, t, lo)
    ensures Timed(s', t, lo)
  {
  }

  lemma TimedReturn(cfg: Config, s: State, t: nat, outcome: Outcome, lo: int)
    requires s.hist != [] && Enabled(s, Return(t, outcome)) && Timed(s, t, lo)
    ensures |Apply(cfg, s, Return(t, outcome)).threads| == |s.threads|
    ensures Timed(Apply(cfg, s, Return(t, outcome)), t, lo)
  {
  }

  lemma TimedKept(cfg: Config, s: State, a: Action, t: nat, lo: int)
    requires Reachable(cfg, s) && s.hist != [] && Enabled(s, a)
    requires t < |s.threads| && InCall(s.threads[t].pc) && Timed(s, t, lo)
    ensures |Apply(cfg, s, a).threads| == |s.threads| && Timed(Apply(cfg, s, a), t, lo)
  {
    InvReachable(cfg, s);
    TracedReachable(cfg, s);
    if a.Tick? {
      TimedOther(s, Apply(cfg, s, a), t, lo);
    } else if a.t != t {
      StepGrows(cfg, s, a);
      TimedOther(s, Apply(cfg, s, a), t, lo);
    } else if a.Move? {
      TimedRecord(cfg, s, t, lo);
    } else {
      TimedReturn(cfg, s, t, a.outcome, lo);
    }
  }

  lemma RunReaches(cfg: Config, run: seq<State>, j: nat)
    requires IsRun(cfg, run) && j < |run|
    ensures Reachable(cfg, run[j])
  {
    var prefix := run[..j + 1];
    forall i: nat
      ensures StepAt(cfg, prefix, i)
    {
      assert StepAt(cfg, run, i);
    }
    assert IsRun(cfg, prefix) && prefix[|prefix| - 1] == run[j];
  }

  lemma TimedStep(cfg: Config, run: seq<State>, i: nat, t: nat, lo: int)
    requires IsRun(cfg, run) && i + 1 < |run|
    requires t < |run[i].threads| && InCall(run[i].threads[t].pc) && Timed(run[i], t, lo)
    ensures t < |run[i + 1].threads| && Timed(run[i + 1], t, lo)
  {
    RunReaches(cfg, run, i);
    assert StepAt(cfg, run, i);
    var a :| Enabled(run[i], a) && Apply(cfg, run[i], a) == run[i + 1];
    TimedKept(cfg, run[i], a, t, lo);
  }

  lemma {:induction false} TimedAlways(cfg: Config, run: seq<State>, i: nat, j: nat, t: nat)
    requires IsRun(cfg, run) && i <= j < |run| && t < |run[i].threads| && run[i].threads[t].pc.Calling?
    requires forall k :: i <= k < j ==> t < |run[k].threads| && InCall(run[k].threads[t].pc)
    ensures t < |run[j].threads| && Timed(run[j], t, run[i].now)
    decreases j
  {
    if i < j {
      TimedAlways(cfg, run, i, j - 1, t);
      TimedStep(cfg, run, j - 1, t, run[i].now);
    }
  }

  /** The time recorded with a failure, from which the cooldown of the breaker it opens is counted, was read between the
      moment the protected function was still executing and the moment the call releases. */
  lemma FailureTime(cfg: Config, run: seq<State>, i: nat, j: nat, t: nat)
    requires IsRun(cfg, run) && i <= j < |run| && t < |run[i].threads| && run[i].threads[t].pc.Calling?
    requires forall k :: i <= k <= j ==> t < |run[k].threads| && InCall(run[k].threads[t].pc)
    requires run[j].threads[t].pc.Releasing? && run[j].threads[t].outcome == Some(Failed)
    ensures run[j].threads[t].pc.logged.RecordedAt? && run[j].threads[t].pc.logged.pos < |run[j].ops|
    ensures var op := run[j].ops[run[j].threads[t].pc.logged.pos];
            op.Failure? && run[i].now <= op.at <= run[j].now
  {
    TimedAlways(cfg, run, i, j, t);
    TracedAlways(cfg, run, j);
    assert OutcomeOk(run[j].ops, run[j].threads[t]);
  }

  /** Half-open snapshots that no probe separates belong to one half-open phase. */
  lemma {:induction false} SamePhase(cfg: Config, hist: seq<Snapshot>, via: seq<Op>, lo: nat, k: nat)
    requires HistOk(cfg, hist, via) && lo <= k < |hist| && NoProbe(via, lo, k) && hist[k].state.HalfOpen?
    ensures hist[lo].state.HalfOpen? && hist[lo].generation == hist[k].generation
    decreases k
  {
    if lo < k {
      assert Linked(cfg, hist, via, k - 1);
      SamePhase(cfg, hist, via, lo, k - 1);
    }
  }

  /** Whose outcomes count while half-open: the probe's of this very phase, or those of calls that were admitted on a
      closed snapshot of an earlier generation. */
  lemma HalfOpenOutcomes(cfg: Config, s: State, k: nat)
    requires Reachable(cfg, s) && k < |s.via| && k < |s.hist| && s.hist[k].state.HalfOpen?
    requires s.via[k].Success? || s.via[k].Failure?
    ensures |s.viaFrom| == |s.via| && s.viaFrom[k].Admitted? && s.viaFrom[k].seen <= k
    ensures var seen := s.hist[s.viaFrom[k].seen];
            if s.viaFrom[k].probe then seen.state.HalfOpen? && seen.generation == s.hist[k].generation
            else seen.state.Closed? && seen.generation < s.hist[k].generation
  {
    InvReachable(cfg, s);
    TracedReachable(cfg, s);
    assert FromOk(s.hist, s.via, s.viaFrom[k], k);
    var seen := s.viaFrom[k].seen;
    if s.viaFrom[k].probe {
      SamePhase(cfg, s.hist, s.via, seen, k);
    } else {
      GenerationCountsChanges(cfg, s.hist, s.via, seen, k);
    }
  }
}
