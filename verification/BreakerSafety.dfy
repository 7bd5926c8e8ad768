/** What the lock-free breaker promises over every run of any number of threads. */
module BreakerSafety {
  import opened BreakerSpec
  import opened BreakerMachine
  import opened BreakerInvariant

  function Current(s: State): Snapshot
    requires s.hist != []
  {
    s.hist[|s.hist| - 1]
  }

  /** Refinement: every run is a run of the sequential breaker over the operations recorded so far, and the counters of
      the current snapshot mean what they mean there. */
  lemma RefinesSequential(cfg: Config, s: State)
    requires Sane(cfg) && Reachable(cfg, s)
    ensures s.hist != [] && Legal(cfg, s.ops) && Current(s) == After(cfg, s.ops) && Means(cfg, s.ops, Current(s))
    ensures HistOk(cfg, s.hist, s.via)
  {
    InvReachable(cfg, s);
    SnapshotMeans(cfg, s.ops);
  }

  /** The edges between installed snapshots: counting in place, opening, half-opening, re-opening, closing,
      resetting. */
  lemma OnlyLegalEdges(cfg: Config, s: State, k: nat)
    requires Reachable(cfg, s) && k + 1 < |s.hist|
    ensures |s.via| == |s.hist| - 1
    ensures var a, b := s.hist[k], s.hist[k + 1];
            match s.via[k]
            case Success =>
              if b.generation == a.generation then
                || (a.state == b.state == Closed && a.failures > 0 && b.failures == 0)
                || (a.state == b.state == HalfOpen && b.successes == a.successes + 1 < cfg.halfOpenSuccesses)
              else
                a.state == HalfOpen && b.state == Closed && b.failures == 0 && a.successes + 1 >= cfg.halfOpenSuccesses
            case Failure(at) =>
              if b.generation == a.generation then
                a.state == b.state == Closed && b.failures == a.failures + 1 < cfg.maxFailures
              else
                && b.state == Open && b.lastFailedAt == at
                && (a.state == HalfOpen || (a.state == Closed && a.failures + 1 >= cfg.maxFailures))
            case Probe(at) =>
              a.state == Open && b.state == HalfOpen && b.successes == 0 && at >= a.lastFailedAt + cfg.resetTimeout
            case Reset => b.state == Closed && b.failures == 0 && b.generation == a.generation + 1
  {
    InvReachable(cfg, s);
    assert Linked(cfg, s.hist, s.via, k);
  }

  /** Slot ownership: the flag is set exactly when one thread owns the slot, and then only one does. */
  lemma SlotOwnership(cfg: Config, s: State)
    requires Reachable(cfg, s)
    ensures s.probing <==> exists t :: 0 <= t < |s.threads| && Owns(s.threads[t].pc)
    ensures forall t, u :: 0 <= t < |s.threads| && 0 <= u < |s.threads| ==>
              Owns(s.threads[t].pc) && Owns(s.threads[u].pc) ==> t == u
    ensures (forall t :: 0 <= t < |s.threads| ==> s.threads[t].pc.Idle?) ==> !s.probing
  {
    InvReachable(cfg, s);
  }

  /** At most one probe is executing. */
  lemma SingleProbe(cfg: Config, s: State, t: nat, u: nat)
    requires Reachable(cfg, s) && t < |s.threads| && u < |s.threads|
    requires s.threads[t].pc.Calling? && s.threads[t].pc.probe && s.threads[u].pc.Calling? && s.threads[u].pc.probe
    ensures t == u
  {
    InvReachable(cfg, s);
  }

  /** Only the owner of the slot clears the flag. */
  lemma OnlyOwnerClears(cfg: Config, s: State, a: Action)
    requires Reachable(cfg, s) && s.hist != [] && Enabled(s, a) && s.probing && !Apply(cfg, s, a).probing
    ensures !a.Tick? && Owns(s.threads[a.t].pc)
  {
    InvReachable(cfg, s);
    if !a.Tick? {
      MoveSlot(cfg, s, a);
    }
  }

  /** A recorded outcome or a Reset never makes the breaker half-open. */
  lemma RecordNeverHalfOpens(cfg: Config, s: State, t: nat)
    requires SelfOk(cfg, s, t) && s.hist != [] && Current(s).state.Open? && !Allowing(s.threads[t].pc)
    requires Enabled(s, Move(t))
    ensures !Current(Apply(cfg, s, Move(t))).state.HalfOpen?
  {
  }

  /** In `allow` only the swap by the owner of the slot installs a snapshot. */
  lemma AllowHalfOpens(cfg: Config, s: State, t: nat)
    requires Enabled(s, Move(t)) && Allowing(s.threads[t].pc) && s.hist != []
    ensures Apply(cfg, s, Move(t)).hist != s.hist ==>
              s.threads[t].pc.AllowSwap? && Owns(Apply(cfg, s, Move(t)).threads[t].pc)
  {
  }

  /** Only the owner of the slot turns an open breaker half-open, and it still owns the slot afterwards. */
  lemma OnlyOwnerHalfOpens(cfg: Config, s: State, a: Action)
    requires Reachable(cfg, s) && s.hist != [] && Enabled(s, a)
    requires Current(s).state.Open? && Current(Apply(cfg, s, a)).state.HalfOpen?
    ensures a.Move? && s.threads[a.t].pc.AllowSwap? && Owns(Apply(cfg, s, a).threads[a.t].pc)
  {
    if a.Move? {
      if Allowing(s.threads[a.t].pc) {
        AllowHalfOpens(cfg, s, a.t);
      } else {
        InvReachable(cfg, s);
        assert SelfOk(cfg, s, a.t);
        RecordNeverHalfOpens(cfg, s, a.t);
      }
    }
  }

  /** Why `allow` may turn a call away: an open snapshot that was current during this call has not cooled down, or
      another thread owns the probe slot. */
  ghost predicate Refusable(cfg: Config, s: State, t: nat)
    requires t < |s.threads|
  {
    match s.threads[t].pc
    case AllowClock(i) =>
      s.threads[t].begun <= i + 1 <= |s.hist| && s.hist[i].state.Open?
      && s.now - s.hist[i].lastFailedAt < cfg.resetTimeout
    case AllowFlag(_, _) => exists u :: 0 <= u < |s.threads| && u != t && Owns(s.threads[u].pc)
    case HalfFlag(_) => exists u :: 0 <= u < |s.threads| && u != t && Owns(s.threads[u].pc)
    case _ => false
  }

  lemma MoveRefuses(cfg: Config, s: State, t: nat)
    requires s.hist != [] && t < |s.threads| && Allowing(s.threads[t].pc)
    ensures var pc := s.threads[t].pc;
            MoveAllow(cfg, s, t).threads[t].pc.Idle? <==>
              (pc.AllowClock? && pc.i < |s.hist| && !CooledDown(cfg, s.hist[pc.i], s.now))
              || ((pc.AllowFlag? || pc.HalfFlag?) && s.probing)
  {
  }

  lemma SlotTaken(s: State, t: nat)
    requires SlotOk(s.probing, s.threads) && t < |s.threads| && !Owns(s.threads[t].pc)
    ensures s.probing <==> exists u :: 0 <= u < |s.threads| && u != t && Owns(s.threads[u].pc)
  {
  }

  /** Rejections: a step of `allow` ends the call with ErrOpen exactly when there is such a reason; a lost race never
      does. */
  lemma RejectsExactly(cfg: Config, s: State, t: nat)
    requires Reachable(cfg, s) && s.hist != [] && t < |s.threads| && Allowing(s.threads[t].pc)
    ensures Apply(cfg, s, Move(t)).threads[t].pc.Idle? <==> Refusable(cfg, s, t)
  {
    InvReachable(cfg, s);
    SelfHolds(cfg, s, t);
    MoveRefuses(cfg, s, t);
    if !Owns(s.threads[t].pc) {
      SlotTaken(s, t);
    }
  }

  /** Lock-freedom: a call has retried its loop at most once for every snapshot installed since it began, and all of
      those were installed by other threads. */
  lemma RetriesAreOthersProgress(cfg: Config, s: State, t: nat)
    requires Reachable(cfg, s) && t < |s.threads| && InLoop(s.threads[t].pc)
    ensures |s.viaBy| == |s.hist| - 1 && s.threads[t].begun >= 1
    ensures s.threads[t].retries <= |s.hist| - s.threads[t].begun
    ensures forall k :: s.threads[t].begun - 1 <= k < |s.viaBy| ==> s.viaBy[k] != t
  {
    InvReachable(cfg, s);
    assert ThreadOk(cfg, s.hist, s.viaBy, s.ops, s.opsBy, s.now, t, s.threads[t]);
  }

  /** Nothing but an admitted probe or a Reset replaces an open snapshot, so failures recorded while the breaker is
      open never move `lastFailedAt`. */
  lemma OpenLeftOnlyByProbeOrReset(cfg: Config, s: State, k: nat)
    requires Reachable(cfg, s) && k + 1 < |s.hist| && s.hist[k].state.Open?
    ensures |s.via| == |s.hist| - 1 && (s.via[k].Probe? || s.via[k].Reset?)
  {
    InvReachable(cfg, s);
    assert Linked(cfg, s.hist, s.via, k);
  }

  /** Open is held for the cooldown: once the open snapshot `k` is installed, no call that begins later is admitted
      before `resetTimeout` has passed since its `lastFailedAt`, unless somebody resets the breaker. */
  lemma OpenHeldForCooldown(cfg: Config, s: State, t: nat, k: nat)
    requires Reachable(cfg, s) && t < |s.threads| && s.threads[t].pc.Calling?
    requires k < s.threads[t].begun && k < |s.hist| && s.hist[k].state.Open?
    requires forall j :: k <= j < |s.via| ==> !s.via[j].Reset?
    ensures s.now >= s.hist[k].lastFailedAt + cfg.resetTimeout
  {
    InvReachable(cfg, s);
    assert ThreadOk(cfg, s.hist, s.viaBy, s.ops, s.opsBy, s.now, t, s.threads[t]);
    assert s.threads[t].call.seen != k;
    OpenLeftOnlyByProbeOrReset(cfg, s, k);
    assert Linked(cfg, s.hist, s.via, k);
  }

  // ----- Snapshots and generations -----

  ghost predicate Shape(cfg: Config, s: Snapshot) {
    match s.state
    case Closed => s.successes == 0 && s.failures < cfg.maxFailures
    case HalfOpen => s.failures == 0 && s.successes < cfg.halfOpenSuccesses
    case Open => s.successes == 0 && (s.failures == 1 || s.failures == cfg.maxFailures)
  }

  lemma {:induction false} ShapeAlways(cfg: Config, hist: seq<Snapshot>, via: seq<Op>, k: nat)
    requires Sane(cfg) && HistOk(cfg, hist, via) && k < |hist|
    ensures Shape(cfg, hist[k])
  {
    if k > 0 {
      ShapeAlways(cfg, hist, via, k - 1);
      assert Linked(cfg, hist, via, k - 1);
    }
  }

  /** A generation counts the state changes and resets between two installed snapshots. */
  function Changes(hist: seq<Snapshot>, via: seq<Op>, lo: nat, hi: nat): nat
    requires lo <= hi < |hist| && |via| == |hist| - 1
  {
    if lo == hi then 0
    else Changes(hist, via, lo, hi - 1) +
         if via[hi - 1].Reset? || hist[hi - 1].state != hist[hi].state then 1 else 0
  }

  lemma {:induction false} GenerationCountsChanges(cfg: Config, hist: seq<Snapshot>, via: seq<Op>, lo: nat, hi: nat)
    requires HistOk(cfg, hist, via) && lo <= hi < |hist|
    ensures hist[hi].generation == hist[lo].generation + Changes(hist, via, lo, hi)
    ensures Changes(hist, via, lo, hi) == 0 ==> hist[hi].state == hist[lo].state
    decreases hi
  {
    if lo < hi {
      GenerationCountsChanges(cfg, hist, via, lo, hi - 1);
      assert Linked(cfg, hist, via, hi - 1);
    }
  }

  lemma SameGenerationSameState(cfg: Config, s: State, a: nat, b: nat)
    requires Reachable(cfg, s) && a < |s.hist| && b < |s.hist| && s.hist[a].generation == s.hist[b].generation
    ensures s.hist[a].state == s.hist[b].state
  {
    InvReachable(cfg, s);
    GenerationCountsChanges(cfg, s.hist, s.via, if a <= b then a else b, if a <= b then b else a);
  }

  /** Within one half-open generation every installed snapshot counts one more success. */
  lemma {:induction false} HalfOpenCounts(cfg: Config, hist: seq<Snapshot>, via: seq<Op>, a: nat, b: nat)
    requires HistOk(cfg, hist, via) && a <= b < |hist|
    requires hist[a].state.HalfOpen? && hist[a].generation == hist[b].generation
    ensures hist[b].state.HalfOpen? && hist[b].successes == hist[a].successes + (b - a)
    decreases b
  {
    if a < b {
      GenerationCountsChanges(cfg, hist, via, a, b);
      GenerationCountsChanges(cfg, hist, via, a, b - 1);
      HalfOpenCounts(cfg, hist, via, a, b - 1);
      assert Linked(cfg, hist, via, b - 1);
    }
  }

  /** One half-open generation records at most `halfOpenSuccesses` outcomes: its snapshots are at most that many, and
      each is replaced by one recorded outcome (or by a Reset). */
  lemma HalfOpenBudget(cfg: Config, s: State, a: nat, b: nat)
    requires Sane(cfg) && Reachable(cfg, s) && a <= b < |s.hist|
    requires s.hist[a].state.HalfOpen? && s.hist[a].generation == s.hist[b].generation
    ensures b - a < cfg.halfOpenSuccesses
    ensures b + 1 < |s.hist| ==> |s.via| == |s.hist| - 1 && !s.via[b].Probe?
  {
    InvReachable(cfg, s);
    HalfOpenCounts(cfg, s.hist, s.via, a, b);
    ShapeAlways(cfg, s.hist, s.via, b);
    if b + 1 < |s.hist| {
      assert Linked(cfg, s.hist, s.via, b);
    }
  }
}
