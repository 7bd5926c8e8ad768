/** What every reachable state of the lock-free breaker satisfies, for any number of threads. */
module BreakerInvariant {
  import opened BreakerSpec
  import opened BreakerMachine

  /** An operation that is installed changes the snapshot it is applied to. */
  ghost predicate Effective(s: Snapshot, op: Op) {
    match op
    case Success => s.state.HalfOpen? || (s.state.Closed? && s.failures > 0)
    case Failure(_) => !s.state.Open?
    case _ => true
  }

  /** Snapshot `k + 1` is the sequential step of `via[k]` from its immediate predecessor. */
  ghost predicate Linked(cfg: Config, hist: seq<Snapshot>, via: seq<Op>, k: nat) {
    k < |via| && k + 1 < |hist| &&
    hist[k + 1] == Next(cfg, hist[k], via[k]) && Allowed(cfg, hist[k], via[k]) && Effective(hist[k], via[k])
  }

  /** The installed snapshots are a run of the sequential breaker. */
  ghost predicate HistOk(cfg: Config, hist: seq<Snapshot>, via: seq<Op>) {
    && |hist| == |via| + 1
    && hist[0] == INITIAL
    && forall k: nat :: k < |via| ==> Linked(cfg, hist, via, k)
  }

  /** The current snapshot is what the recorded operations, applied one after the other, lead to. */
  ghost predicate OpsOk(cfg: Config, hist: seq<Snapshot>, ops: seq<Op>) {
    Legal(cfg, ops) && hist != [] && After(cfg, ops) == hist[|hist| - 1]
  }

  /** Clock readings are not from the future. */
  ghost predicate ClockOk(via: seq<Op>, now: int) {
    forall k :: 0 <= k < |via| && (via[k].Probe? || via[k].Failure?) ==> via[k].at <= now
  }

  /** A pointer loaded during the current call. */
  ghost predicate PtrOk(hist: seq<Snapshot>, begun: nat, i: nat) {
    begun <= i + 1 <= |hist|
  }

  ghost predicate PcOk(cfg: Config, hist: seq<Snapshot>, begun: nat, now: int, pc: Pc) {
    match pc
    case AllowClock(i) => PtrOk(hist, begun, i) && hist[i].state.Open?
    case AllowFlag(i, at) => PtrOk(hist, begun, i) && hist[i].state.Open? && CooledDown(cfg, hist[i], at) && at <= now
    case AllowSwap(i, at) => PtrOk(hist, begun, i) && hist[i].state.Open? && CooledDown(cfg, hist[i], at) && at <= now
    case HalfFlag(i) => PtrOk(hist, begun, i) && hist[i].state.HalfOpen?
    case HalfCheck(i) => PtrOk(hist, begun, i) && hist[i].state.HalfOpen?
    case RecClock(_, i) => PtrOk(hist, begun, i) && !hist[i].state.Open?
    case RecSwap(_, ok, i, op) =>
      && PtrOk(hist, begun, i) && Effective(hist[i], op)
      && (if ok then op.Success? else op.Failure? && op.at <= now)
    case ResetSwap(i) => PtrOk(hist, begun, i)
    case _ => true
  }

  /** A probe is admitted on a half-open snapshot, any other call on a closed one. */
  ghost predicate AdmittedOn(hist: seq<Snapshot>, probe: bool, call: Admission) {
    && call.Admitted? && call.probe == probe && call.seen < |hist|
    && hist[call.seen].state == if probe then HalfOpen else Closed
  }

  /** The number of snapshots a thread knows to be installed. */
  function Known(pc: Pc, installed: nat): int {
    match pc
    case AllowClock(i) => i + 1
    case AllowFlag(i, _) => i + 1
    case AllowSwap(i, _) => i + 1
    case HalfFlag(i) => i + 1
    case HalfCheck(i) => i + 1
    case RecClock(_, i) => i + 1
    case RecSwap(_, _, i, _) => i + 1
    case ResetSwap(i) => i + 1
    case AllowUndo => installed - 1
    case HalfUndo => installed - 1
    case _ => installed
  }

  predicate InLoop(pc: Pc) { Allowing(pc) || Recording(pc) || Resetting(pc) }

  /** Thread `t` did none of the things listed from position `from` on. */
  ghost predicate NotBy(who: seq<nat>, from: nat, t: nat) {
    forall k :: from <= k < |who| ==> who[k] != t
  }

  ghost predicate ThreadOk(cfg: Config, hist: seq<Snapshot>, viaBy: seq<nat>, ops: seq<Op>, opsBy: seq<nat>, now: int,
                           t: nat, th: Thread) {
    && 1 <= th.begun <= |hist| && th.opsBegun <= |ops|
    && PcOk(cfg, hist, th.begun, now, th.pc)
    && (th.pc.Calling? ==> AdmittedOn(hist, th.pc.probe, th.call) && PtrOk(hist, th.begun, th.call.seen))
    && th.retries + th.begun <= Known(th.pc, |hist|)
    && (InLoop(th.pc) ==> NotBy(viaBy, th.begun - 1, t) && NotBy(opsBy, th.opsBegun, t))
    && (th.pc.Releasing? ==>
          match th.pc.logged
          case NotRecorded => NotBy(opsBy, th.opsBegun, t)
          case RecordedAt(pos) =>
            && th.opsBegun <= pos < |ops| && pos < |opsBy| && opsBy[pos] == t
            && (ops[pos].Success? || ops[pos].Failure?)
            && NotBy(opsBy[..pos], th.opsBegun, t) && NotBy(opsBy, pos + 1, t))
  }

  ghost predicate ThreadsOk(cfg: Config, s: State) {
    forall t :: 0 <= t < |s.threads| ==> ThreadOk(cfg, s.hist, s.viaBy, s.ops, s.opsBy, s.now, t, s.threads[t])
  }

  /** A thread that owns the probe slot. */
  predicate Owns(pc: Pc) {
    match pc
    case AllowSwap(_, _) => true
    case AllowUndo => true
    case HalfCheck(_) => true
    case HalfUndo => true
    case Calling(probe) => probe
    case RecLoad(probe, _) => probe
    case RecClock(probe, _) => probe
    case RecSwap(probe, _, _, _) => probe
    case Releasing(probe, _) => probe
    case _ => false
  }

  /** The flag is set exactly when one thread owns the slot. */
  ghost predicate SlotOk(probing: bool, threads: seq<Thread>) {
    && (forall t :: 0 <= t < |threads| && Owns(threads[t].pc) ==> probing)
    && (forall t, u ::
          0 <= t < |threads| && 0 <= u < |threads| && Owns(threads[t].pc) && Owns(threads[u].pc) ==> t == u)
    && (probing ==> exists t :: 0 <= t < |threads| && Owns(threads[t].pc))
  }

  /** What the threads share, apart from the flag. */
  ghost predicate SharedOk(cfg: Config, s: State) {
    && |s.viaBy| == |s.via| && |s.opsBy| == |s.ops|
    && HistOk(cfg, s.hist, s.via) && OpsOk(cfg, s.hist, s.ops) && ClockOk(s.via, s.now)
  }

  ghost predicate Inv(cfg: Config, s: State) {
    SharedOk(cfg, s) && ThreadsOk(cfg, s) && SlotOk(s.probing, s.threads)
  }

  // ----- Every step keeps the invariant -----

  /** The parts of the state that other threads can see only grow, by entries that are not theirs. */
  ghost predicate Grows(s: State, s': State, t: nat) {
    && s.hist <= s'.hist && s.viaBy <= s'.viaBy && s.ops <= s'.ops && s.opsBy <= s'.opsBy && s.now <= s'.now
    && |s'.viaBy| == |s'.via| && |s'.opsBy| == |s'.ops|
    && (forall k :: |s.viaBy| <= k < |s'.viaBy| ==> s'.viaBy[k] == t)
    && (forall k :: |s.opsBy| <= k < |s'.opsBy| ==> s'.opsBy[k] == t)
  }

  lemma OtherThread(cfg: Config, s: State, s': State, t: nat, u: nat, th: Thread)
    requires Grows(s, s', t) && u != t && |s.opsBy| == |s.ops|
    requires ThreadOk(cfg, s.hist, s.viaBy, s.ops, s.opsBy, s.now, u, th)
    ensures ThreadOk(cfg, s'.hist, s'.viaBy, s'.ops, s'.opsBy, s'.now, u, th)
  {
    if th.pc.Releasing? && th.pc.logged.RecordedAt? {
      assert s'.opsBy[..th.pc.logged.pos] == s.opsBy[..th.pc.logged.pos];
    }
  }

  lemma HistExtend(cfg: Config, hist: seq<Snapshot>, via: seq<Op>, op: Op)
    requires HistOk(cfg, hist, via) && Allowed(cfg, hist[|via|], op) && Effective(hist[|via|], op)
    ensures HistOk(cfg, hist + [Next(cfg, hist[|via|], op)], via + [op])
  {
    var hist', via' := hist + [Next(cfg, hist[|via|], op)], via + [op];
    forall k: nat | k < |via'|
      ensures Linked(cfg, hist', via', k)
    {
      assert k < |via| ==> Linked(cfg, hist, via, k);
    }
  }

  /** Installing the effect of an operation on the current snapshot. */
  lemma InstallKept(cfg: Config, s: State, t: nat, op: Op)
    requires SharedOk(cfg, s) && t < |s.threads|
    requires Allowed(cfg, s.hist[|s.hist| - 1], op) && Effective(s.hist[|s.hist| - 1], op)
    requires op.Probe? || op.Failure? ==> op.at <= s.now
    ensures SharedOk(cfg, Install(cfg, s, t, op)) && Grows(s, Install(cfg, s, t, op), t)
  {
    LegalExtend(cfg, s.ops, op);
    HistExtend(cfg, s.hist, s.via, op);
  }

  lemma RecordKept(cfg: Config, s: State, t: nat, op: Op)
    requires SharedOk(cfg, s) && (op.Success? || op.Failure?)
    requires Next(cfg, s.hist[|s.hist| - 1], op) == s.hist[|s.hist| - 1]
    ensures SharedOk(cfg, Record(s, t, op)) && Grows(s, Record(s, t, op), t)
  {
    LegalExtend(cfg, s.ops, op);
  }

  /** The sequences that record who did what, after one more entry of thread `t`. */
  lemma NotByAppend(who: seq<nat>, from: nat, t: nat)
    requires NotBy(who, from, t) && from <= |who|
    ensures NotBy((who + [t])[..|who|], from, t) && NotBy(who + [t], |who| + 1, t)
  {
    assert (who + [t])[..|who|] == who;
  }

  /** The thread's own part of the invariant. */
  ghost predicate SelfOk(cfg: Config, s: State, t: nat) {
    && t < |s.threads| && |s.hist| == |s.viaBy| + 1 && |s.ops| == |s.opsBy|
    && ThreadOk(cfg, s.hist, s.viaBy, s.ops, s.opsBy, s.now, t, s.threads[t])
  }

  lemma AllowLoadSelf(cfg: Config, s: State, t: nat)
    requires SelfOk(cfg, s, t) && s.threads[t].pc.AllowLoad?
    ensures SelfOk(cfg, MoveAllow(cfg, s, t), t)
  {
  }

  lemma AllowHalfSelf(cfg: Config, s: State, t: nat)
    requires SelfOk(cfg, s, t) && (s.threads[t].pc.HalfFlag? || s.threads[t].pc.HalfCheck? || s.threads[t].pc.HalfUndo?)
    ensures SelfOk(cfg, MoveAllow(cfg, s, t), t)
  {
  }

  lemma AllowOpenSelf(cfg: Config, s: State, t: nat)
    requires SelfOk(cfg, s, t)
    requires (s.threads[t].pc.AllowClock? || s.threads[t].pc.AllowFlag? || s.threads[t].pc.AllowUndo?)
    ensures SelfOk(cfg, MoveAllow(cfg, s, t), t)
  {
  }

  lemma AllowLostSelf(cfg: Config, s: State, t: nat)
    requires SelfOk(cfg, s, t) && s.threads[t].pc.AllowSwap? && s.threads[t].pc.i != |s.hist| - 1
    ensures SelfOk(cfg, MoveAllow(cfg, s, t), t)
  {
  }

  lemma AllowSelf(cfg: Config, s: State, t: nat)
    requires SelfOk(cfg, s, t) && Allowing(s.threads[t].pc)
    requires s.threads[t].pc.AllowSwap? ==> s.threads[t].pc.i != |s.hist| - 1
    ensures SelfOk(cfg, MoveAllow(cfg, s, t), t)
  {
    match s.threads[t].pc
    case AllowLoad => AllowLoadSelf(cfg, s, t);
    case AllowSwap(_, _) => AllowLostSelf(cfg, s, t);
    case HalfFlag(_) => AllowHalfSelf(cfg, s, t);
    case HalfCheck(_) => AllowHalfSelf(cfg, s, t);
    case HalfUndo => AllowHalfSelf(cfg, s, t);
    case _ => AllowOpenSelf(cfg, s, t);
  }

  lemma AllowInstall(cfg: Config, s: State, t: nat)
    requires SelfOk(cfg, s, t) && s.threads[t].pc.AllowSwap? && s.threads[t].pc.i == |s.hist| - 1
    ensures SelfOk(cfg, MoveAllow(cfg, s, t), t)
  {
  }

  lemma IgnoredSelf(cfg: Config, s: State, t: nat)
    requires SelfOk(cfg, s, t) && s.threads[t].pc.RecLoad? && Ignored(s.hist[|s.hist| - 1], s.threads[t].pc.ok)
    ensures SelfOk(cfg, MoveRecord(cfg, s, t), t)
  {
    NotByAppend(s.opsBy, s.threads[t].opsBegun, t);
  }

  lemma LoadSelf(cfg: Config, s: State, t: nat)
    requires SelfOk(cfg, s, t) && s.threads[t].pc.RecLoad? && !Ignored(s.hist[|s.hist| - 1], s.threads[t].pc.ok)
    ensures SelfOk(cfg, MoveRecord(cfg, s, t), t)
  {
  }

  lemma SwapSelf(cfg: Config, s: State, t: nat)
    requires SelfOk(cfg, s, t) && s.threads[t].pc.RecSwap? && s.threads[t].pc.i == |s.hist| - 1
    ensures SelfOk(cfg, MoveRecord(cfg, s, t), t)
  {
    NotByAppend(s.opsBy, s.threads[t].opsBegun, t);
  }

  lemma SwapLostSelf(cfg: Config, s: State, t: nat)
    requires SelfOk(cfg, s, t) && s.threads[t].pc.RecSwap? && s.threads[t].pc.i != |s.hist| - 1
    ensures SelfOk(cfg, MoveRecord(cfg, s, t), t)
  {
  }

  lemma ReleaseSelf(cfg: Config, s: State, t: nat)
    requires SelfOk(cfg, s, t) && (s.threads[t].pc.RecClock? || s.threads[t].pc.Releasing?)
    ensures SelfOk(cfg, MoveRecord(cfg, s, t), t)
  {
  }

  lemma ResetSelf(cfg: Config, s: State, t: nat)
    requires SelfOk(cfg, s, t) && Resetting(s.threads[t].pc)
    ensures SelfOk(cfg, MoveReset(cfg, s, t), t)
  {
  }

  lemma CallSelf(cfg: Config, s: State, a: Action)
    requires Enabled(s, a) && (a.Call? || a.CallReset? || a.Return?) && SelfOk(cfg, s, a.t)
    ensures SelfOk(cfg, Apply(cfg, s, a), a.t)
  {
  }

  /** Up to its swap, `allow` leaves everything but the flag and its own thread alone. */
  lemma AllowChangesNothing(cfg: Config, s: State, t: nat)
    requires s.hist != [] && t < |s.threads| && Allowing(s.threads[t].pc)
    requires s.threads[t].pc.AllowSwap? ==> s.threads[t].pc.i != |s.hist| - 1
    ensures var s' := MoveAllow(cfg, s, t); s' == s.(threads := s'.threads, probing := s'.probing)
  {
  }

  /** The shared part changes only by installing or recording one operation. */
  lemma AllowShared(cfg: Config, s: State, t: nat)
    requires SharedOk(cfg, s) && SelfOk(cfg, s, t) && Allowing(s.threads[t].pc)
    ensures SharedOk(cfg, MoveAllow(cfg, s, t)) && Grows(s, MoveAllow(cfg, s, t), t)
  {
    var pc := s.threads[t].pc;
    if pc.AllowSwap? && pc.i == |s.hist| - 1 {
      InstallKept(cfg, s, t, Probe(pc.at));
    } else {
      AllowChangesNothing(cfg, s, t);
    }
  }

  lemma LoadShared(cfg: Config, s: State, t: nat)
    requires SharedOk(cfg, s) && t < |s.threads| && s.threads[t].pc.RecLoad?
    requires !Ignored(s.hist[|s.hist| - 1], s.threads[t].pc.ok)
    ensures SharedOk(cfg, MoveRecord(cfg, s, t)) && Grows(s, MoveRecord(cfg, s, t), t)
  {
    var s' := MoveRecord(cfg, s, t);
    assert s' == Goto(s, t, s'.threads[t].pc);
  }

  lemma IgnoredShared(cfg: Config, s: State, t: nat)
    requires SharedOk(cfg, s) && t < |s.threads| && s.threads[t].pc.RecLoad?
    requires Ignored(s.hist[|s.hist| - 1], s.threads[t].pc.ok)
    ensures SharedOk(cfg, MoveRecord(cfg, s, t)) && Grows(s, MoveRecord(cfg, s, t), t)
  {
    var op := if s.threads[t].pc.ok then Success else Failure(s.now);
    RecordKept(cfg, s, t, op);
    var s' := MoveRecord(cfg, s, t);
    assert s' == Goto(Record(s, t, op), t, s'.threads[t].pc);
  }

  lemma RecordShared(cfg: Config, s: State, t: nat)
    requires SharedOk(cfg, s) && SelfOk(cfg, s, t)
    requires s.threads[t].pc.RecClock? || s.threads[t].pc.RecSwap? || s.threads[t].pc.Releasing?
    ensures SharedOk(cfg, MoveRecord(cfg, s, t)) && Grows(s, MoveRecord(cfg, s, t), t)
  {
    var pc := s.threads[t].pc;
    if pc.RecSwap? && pc.i == |s.hist| - 1 {
      InstallKept(cfg, s, t, pc.op);
    }
  }

  lemma ResetShared(cfg: Config, s: State, t: nat)
    requires SharedOk(cfg, s) && SelfOk(cfg, s, t) && Resetting(s.threads[t].pc)
    ensures SharedOk(cfg, MoveReset(cfg, s, t)) && Grows(s, MoveReset(cfg, s, t), t)
  {
    if s.threads[t].pc.ResetSwap? && s.threads[t].pc.i == |s.hist| - 1 {
      InstallKept(cfg, s, t, Reset);
    }
  }

  lemma MoveShared(cfg: Config, s: State, t: nat)
    requires SharedOk(cfg, s) && SelfOk(cfg, s, t) && Enabled(s, Move(t))
    ensures SharedOk(cfg, Apply(cfg, s, Move(t))) && Grows(s, Apply(cfg, s, Move(t)), t)
  {
    if Allowing(s.threads[t].pc) {
      AllowShared(cfg, s, t);
    } else if Resetting(s.threads[t].pc) {
      ResetShared(cfg, s, t);
    } else if s.threads[t].pc.RecLoad? {
      if Ignored(s.hist[|s.hist| - 1], s.threads[t].pc.ok) {
        IgnoredShared(cfg, s, t);
      } else {
        LoadShared(cfg, s, t);
      }
    } else {
      RecordShared(cfg, s, t);
    }
  }

  lemma MoveSelf(cfg: Config, s: State, t: nat)
    requires SelfOk(cfg, s, t) && Enabled(s, Move(t))
    ensures SelfOk(cfg, Apply(cfg, s, Move(t)), t)
  {
    var pc := s.threads[t].pc;
    if pc.AllowSwap? && pc.i == |s.hist| - 1 {
      AllowInstall(cfg, s, t);
    } else if Allowing(pc) {
      AllowSelf(cfg, s, t);
    } else if Resetting(pc) {
      ResetSelf(cfg, s, t);
    } else if pc.RecLoad? {
      if Ignored(s.hist[|s.hist| - 1], pc.ok) {
        IgnoredSelf(cfg, s, t);
      } else {
        LoadSelf(cfg, s, t);
      }
    } else if pc.RecSwap? {
      if pc.i == |s.hist| - 1 {
        SwapSelf(cfg, s, t);
      } else {
        SwapLostSelf(cfg, s, t);
      }
    } else {
      ReleaseSelf(cfg, s, t);
    }
  }

  /** How a thread uses the flag: it takes the slot only when it is free, and frees it only when it owns it. */
  ghost predicate UsesSlot(s: State, s': State, t: nat) {
    && t < |s.threads| == |s'.threads|
    && s'.threads == s.threads[t := s'.threads[t]]
    && (if Owns(s'.threads[t].pc) then s'.probing && (Owns(s.threads[t].pc) || !s.probing)
        else s'.probing == (s.probing && !Owns(s.threads[t].pc)))
  }

  lemma AllowSlot(cfg: Config, s: State, t: nat)
    requires s.hist != [] && t < |s.threads| && Allowing(s.threads[t].pc) && (Owns(s.threads[t].pc) ==> s.probing)
    ensures UsesSlot(s, MoveAllow(cfg, s, t), t)
  {
  }

  lemma RecordSlot(cfg: Config, s: State, t: nat)
    requires s.hist != [] && t < |s.threads| && (Recording(s.threads[t].pc) || s.threads[t].pc.Releasing?)
    requires Owns(s.threads[t].pc) ==> s.probing
    ensures UsesSlot(s, MoveRecord(cfg, s, t), t)
  {
  }

  lemma ResetSlot(cfg: Config, s: State, t: nat)
    requires s.hist != [] && t < |s.threads| && Resetting(s.threads[t].pc)
    ensures UsesSlot(s, MoveReset(cfg, s, t), t)
  {
  }

  lemma CallSlot(cfg: Config, s: State, a: Action)
    requires s.hist != [] && Enabled(s, a) && !a.Tick? && !a.Move? && (Owns(s.threads[a.t].pc) ==> s.probing)
    ensures UsesSlot(s, Apply(cfg, s, a), a.t)
  {
  }

  lemma MoveSlot(cfg: Config, s: State, a: Action)
    requires s.hist != [] && Enabled(s, a) && !a.Tick? && (Owns(s.threads[a.t].pc) ==> s.probing)
    ensures UsesSlot(s, Apply(cfg, s, a), a.t)
  {
    if !a.Move? {
      CallSlot(cfg, s, a);
    } else if Allowing(s.threads[a.t].pc) {
      AllowSlot(cfg, s, a.t);
    } else if Resetting(s.threads[a.t].pc) {
      ResetSlot(cfg, s, a.t);
    } else {
      RecordSlot(cfg, s, a.t);
    }
  }

  lemma TickKept(cfg: Config, s: State, d: nat)
    requires Inv(cfg, s)
    ensures Inv(cfg, Apply(cfg, s, Tick(d)))
  {
  }

  lemma OthersKept(cfg: Config, s: State, s': State, t: nat)
    requires SharedOk(cfg, s) && ThreadsOk(cfg, s) && UsesSlot(s, s', t) && Grows(s, s', t) && SelfOk(cfg, s', t)
    ensures ThreadsOk(cfg, s')
  {
    forall u | 0 <= u < |s.threads| && u != t
      ensures ThreadOk(cfg, s'.hist, s'.viaBy, s'.ops, s'.opsBy, s'.now, u, s'.threads[u])
    {
      OtherThread(cfg, s, s', t, u, s.threads[u]);
    }
  }

  lemma SlotKept(s: State, s': State, t: nat)
    requires SlotOk(s.probing, s.threads) && UsesSlot(s, s', t)
    ensures SlotOk(s'.probing, s'.threads)
  {
    if s'.probing && !Owns(s'.threads[t].pc) {
      var u :| 0 <= u < |s.threads| && Owns(s.threads[u].pc);
      assert Owns(s'.threads[u].pc);
    }
  }

  /** A call begins, or its protected function returns, without touching anything shared. */
  lemma CallChangesNothing(cfg: Config, s: State, a: Action)
    requires s.hist != [] && Enabled(s, a) && (a.Call? || a.CallReset? || a.Return?)
    ensures Apply(cfg, s, a) == s.(threads := Apply(cfg, s, a).threads)
  {
  }

  lemma CallShared(cfg: Config, s: State, a: Action)
    requires SharedOk(cfg, s) && Enabled(s, a) && (a.Call? || a.CallReset? || a.Return?)
    ensures SharedOk(cfg, Apply(cfg, s, a)) && Grows(s, Apply(cfg, s, a), a.t)
  {
    CallChangesNothing(cfg, s, a);
  }

  lemma StepKept(cfg: Config, s: State, s': State, t: nat)
    requires Inv(cfg, s) && SharedOk(cfg, s') && Grows(s, s', t) && UsesSlot(s, s', t) && SelfOk(cfg, s', t)
    ensures Inv(cfg, s')
  {
    OthersKept(cfg, s, s', t);
    SlotKept(s, s', t);
  }

  lemma SelfHolds(cfg: Config, s: State, t: nat)
    requires Inv(cfg, s) && t < |s.threads|
    ensures SelfOk(cfg, s, t) && (Owns(s.threads[t].pc) ==> s.probing)
  {
  }

  /** What a step of a thread does to the others. */
  lemma StepGrows(cfg: Config, s: State, a: Action)
    requires Inv(cfg, s) && Enabled(s, a) && !a.Tick?
    ensures UsesSlot(s, Apply(cfg, s, a), a.t) && Grows(s, Apply(cfg, s, a), a.t) && SharedOk(cfg, Apply(cfg, s, a))
  {
    SelfHolds(cfg, s, a.t);
    MoveSlot(cfg, s, a);
    if a.Move? {
      MoveShared(cfg, s, a.t);
    } else {
      CallShared(cfg, s, a);
    }
  }

  lemma InvKept(cfg: Config, s: State, a: Action)
    requires Inv(cfg, s) && Enabled(s, a)
    ensures Inv(cfg, Apply(cfg, s, a))
  {
    if a.Tick? {
      TickKept(cfg, s, a.d);
    } else {
      SelfHolds(cfg, s, a.t);
      StepGrows(cfg, s, a);
      if a.Move? {
        MoveSelf(cfg, s, a.t);
      } else {
        CallSelf(cfg, s, a);
      }
      StepKept(cfg, s, Apply(cfg, s, a), a.t);
    }
  }

  lemma InvStart(cfg: Config, n: nat, now: int)
    ensures Inv(cfg, Start(n, now))
  {
  }

  lemma InvStep(cfg: Config, s: State, s': State)
    requires Step(cfg, s, s') && Inv(cfg, s)
    ensures Inv(cfg, s')
  {
    var a :| Enabled(s, a) && Apply(cfg, s, a) == s';
    InvKept(cfg, s, a);
  }

  lemma {:induction false} InvAlways(cfg: Config, run: seq<State>, i: nat)
    requires IsRun(cfg, run) && i < |run|
    ensures Inv(cfg, run[i])
  {
    if i == 0 {
      var n: nat, now :| run[0] == Start(n, now);
      InvStart(cfg, n, now);
    } else {
      InvAlways(cfg, run, i - 1);
      assert StepAt(cfg, run, i - 1);
      InvStep(cfg, run[i - 1], run[i]);
    }
  }

  lemma InvReachable(cfg: Config, s: State)
    requires Reachable(cfg, s)
    ensures Inv(cfg, s)
  {
    var run :| IsRun(cfg, run) && run[|run| - 1] == s;
    InvAlways(cfg, run, |run| - 1);
  }
}
