/** The lock-free breaker: any number of threads run load / compute / compare-and-swap loops over one snapshot pointer
    and one probing flag.  Every `Move` is one atomic access of one thread.

    A snapshot is installed at most once and never freed while a thread can compare against it, so a pointer is
    modelled by the position of its snapshot in the sequence `hist` of installed snapshots; the pointer currently
    stored is the last position. */
module BreakerMachine {
  import opened BreakerSpec
  import opened Options

  /** Whether and where the outcome of a call was recorded. */
  datatype Recorded = NotRecorded | RecordedAt(pos: nat)

  /** Where a thread stands.  `i` is a snapshot pointer it has loaded, `at` a clock reading it has taken. */
  datatype Pc =
    | Idle
    // allow
    | AllowLoad
    | AllowClock(i: nat)
    | AllowFlag(i: nat, at: int)
    | AllowSwap(i: nat, at: int)
    | AllowUndo
    | HalfFlag(i: nat)
    | HalfCheck(i: nat)
    | HalfUndo
    // the protected call
    | Calling(probe: bool)
    // recordSuccess and recordFailure
    | RecLoad(probe: bool, ok: bool)
    | RecClock(probe: bool, i: nat)
    | RecSwap(probe: bool, ok: bool, i: nat, op: Op)
    // the deferred release of the probe slot
    | Releasing(probe: bool, logged: Recorded)
    // Reset
    | ResetLoad
    | ResetSwap(i: nat)

  /** How a protected call ends: counted as a success, counted as a failure (also a panic or a slow call), or
      neutral because the caller cancelled it. */
  datatype Outcome = Succeeded | Failed | Neutral

  /** Whether `allow` has let a call pass, as a probe or not, and on which snapshot. */
  datatype Admission = NoCall | Admitted(probe: bool, seen: nat)

  /** The rest is history: `begun` is the number of installed snapshots and `opsBegun` the number of recorded operations
      when the current call of `allow`, `recordSuccess`, `recordFailure` or `Reset` began, `retries` counts the turns of
      its loop that failed; `call` is the admission of the protected call, and `outcome` how it returned. */
  datatype Thread =
    Thread(pc: Pc, begun: nat, opsBegun: nat, retries: nat, call: Admission, outcome: Option<Outcome>)

  /** `via[k]` by thread `viaBy[k]`, for a call admitted as `viaFrom[k]`, installed `hist[k + 1]`; `ops` and `opsBy`
      list every recorded operation, also those that change nothing. */
  datatype State = State(
    hist: seq<Snapshot>,
    probing: bool,
    now: int,
    threads: seq<Thread>,
    via: seq<Op>,
    viaBy: seq<nat>,
    viaFrom: seq<Admission>,
    ops: seq<Op>,
    opsBy: seq<nat>)

  datatype Action = Call(t: nat) | CallReset(t: nat) | Return(t: nat, outcome: Outcome) | Move(t: nat) | Tick(d: nat)

  function Start(n: nat, now: int): State {
    State([INITIAL], false, now, seq(n, _ => Thread(Idle, 1, 0, 0, NoCall, None)), [], [], [], [], [])
  }

  predicate Enabled(s: State, a: Action) {
    match a
    case Tick(_) => true
    case Call(t) => t < |s.threads| && s.threads[t].pc.Idle?
    case CallReset(t) => t < |s.threads| && s.threads[t].pc.Idle?
    case Return(t, _) => t < |s.threads| && s.threads[t].pc.Calling?
    case Move(t) => t < |s.threads| && !s.threads[t].pc.Idle? && !s.threads[t].pc.Calling?
  }

  /** Thread `t` goes to `pc`. */
  function Goto(s: State, t: nat, pc: Pc): State
    requires t < |s.threads|
  {
    s.(threads := s.threads[t := s.threads[t].(pc := pc)])
  }

  function Retry(s: State, t: nat, pc: Pc): State
    requires t < |s.threads|
  {
    s.(threads := s.threads[t := s.threads[t].(pc := pc, retries := s.threads[t].retries + 1)])
  }

  function Begin(s: State, t: nat, pc: Pc): State
    requires t < |s.threads|
  {
    s.(threads := s.threads[t := Thread(pc, |s.hist|, |s.ops|, 0, NoCall, None)])
  }

  /** The protected function starts. */
  function Admit(s: State, t: nat, probe: bool, seen: nat): State
    requires t < |s.threads|
  {
    s.(threads := s.threads[t := s.threads[t].(pc := Calling(probe), call := Admitted(probe, seen))])
  }

  /** The protected function has returned. */
  function Finish(s: State, t: nat, outcome: Outcome, pc: Pc): State
    requires t < |s.threads|
  {
    s.(threads := s.threads[t := Thread(pc, |s.hist|, |s.ops|, 0, s.threads[t].call, Some(outcome))])
  }

  /** An operation takes effect without changing the snapshot. */
  function Record(s: State, t: nat, op: Op): State {
    s.(ops := s.ops + [op], opsBy := s.opsBy + [t])
  }

  /** A compare-and-swap from the current snapshot succeeds. */
  function Install(cfg: Config, s: State, t: nat, op: Op): State
    requires s.hist != [] && t < |s.threads|
  {
    Record(s, t, op).(hist := s.hist + [Next(cfg, s.hist[|s.hist| - 1], op)],
                      via := s.via + [op], viaBy := s.viaBy + [t], viaFrom := s.viaFrom + [s.threads[t].call])
  }

  function MoveAllow(cfg: Config, s: State, t: nat): State
    requires s.hist != [] && t < |s.threads|
  {
    var last := |s.hist| - 1;
    match s.threads[t].pc
    case AllowLoad =>
      (match s.hist[last].state
       case Closed => Admit(s, t, false, last)
       case Open => Goto(s, t, AllowClock(last))
       case HalfOpen => Goto(s, t, HalfFlag(last)))
    case AllowClock(i) =>
      if i < |s.hist| && !CooledDown(cfg, s.hist[i], s.now) then Goto(s, t, Idle) else Goto(s, t, AllowFlag(i, s.now))
    case AllowFlag(i, at) =>
      if s.probing then Goto(s, t, Idle) else Goto(s, t, AllowSwap(i, at)).(probing := true)
    case AllowSwap(i, at) =>
      if i == last then Admit(Install(cfg, s, t, Probe(at)), t, true, last + 1) else Goto(s, t, AllowUndo)
    case AllowUndo => Retry(s, t, AllowLoad).(probing := false)
    case HalfFlag(i) =>
      if s.probing then Goto(s, t, Idle) else Goto(s, t, HalfCheck(i)).(probing := true)
    case HalfCheck(i) =>
      if !s.hist[last].state.HalfOpen? then Goto(s, t, HalfUndo) else Admit(s, t, true, last)
    case HalfUndo => Retry(s, t, AllowLoad).(probing := false)
    case _ => s
  }

  /** An outcome that leaves the snapshot as it is. */
  predicate Ignored(cur: Snapshot, ok: bool) {
    cur.state.Open? || (ok && cur.state.Closed? && cur.failures == 0)
  }

  function MoveRecord(cfg: Config, s: State, t: nat): State
    requires s.hist != [] && t < |s.threads|
  {
    var last := |s.hist| - 1;
    var cur := s.hist[last];
    match s.threads[t].pc
    case RecLoad(probe, ok) =>
      if Ignored(cur, ok) then
        Goto(Record(s, t, if ok then Success else Failure(s.now)), t, Releasing(probe, RecordedAt(|s.ops|)))
      else if ok then Goto(s, t, RecSwap(probe, true, last, Success))
      else if cur.state.HalfOpen? || cur.failures + 1 >= cfg.maxFailures then Goto(s, t, RecClock(probe, last))
      else Goto(s, t, RecSwap(probe, false, last, Failure(s.now)))
    case RecClock(probe, i) => Goto(s, t, RecSwap(probe, false, i, Failure(s.now)))
    case RecSwap(probe, ok, i, op) =>
      if i == last then Goto(Install(cfg, s, t, op), t, Releasing(probe, RecordedAt(|s.ops|)))
      else Retry(s, t, RecLoad(probe, ok))
    case Releasing(probe, _) => Goto(s, t, Idle).(probing := if probe then false else s.probing)
    case _ => s
  }

  function MoveReset(cfg: Config, s: State, t: nat): State
    requires s.hist != [] && t < |s.threads|
  {
    match s.threads[t].pc
    case ResetLoad => Goto(s, t, ResetSwap(|s.hist| - 1))
    case ResetSwap(i) =>
      if i == |s.hist| - 1 then Goto(Install(cfg, s, t, Reset), t, Idle) else Retry(s, t, ResetLoad)
    case _ => s
  }

  predicate Allowing(pc: Pc) {
    pc.AllowLoad? || pc.AllowClock? || pc.AllowFlag? || pc.AllowSwap? || pc.AllowUndo?
    || pc.HalfFlag? || pc.HalfCheck? || pc.HalfUndo?
  }

  predicate Recording(pc: Pc) { pc.RecLoad? || pc.RecClock? || pc.RecSwap? }

  predicate Resetting(pc: Pc) { pc.ResetLoad? || pc.ResetSwap? }

  function Apply(cfg: Config, s: State, a: Action): State
    requires Enabled(s, a) && s.hist != []
  {
    match a
    case Tick(d) => s.(now := s.now + d)
    case Call(t) => Begin(s, t, AllowLoad)
    case CallReset(t) => Begin(s, t, ResetLoad)
    case Return(t, outcome) =>
      (match outcome
       case Succeeded => Finish(s, t, outcome, RecLoad(s.threads[t].pc.probe, true))
       case Failed => Finish(s, t, outcome, RecLoad(s.threads[t].pc.probe, false))
       case Neutral => Finish(s, t, outcome, Releasing(s.threads[t].pc.probe, NotRecorded)))
    case Move(t) =>
      if Allowing(s.threads[t].pc) then MoveAllow(cfg, s, t)
      else if Resetting(s.threads[t].pc) then MoveReset(cfg, s, t)
      else MoveRecord(cfg, s, t)
  }

  ghost predicate Step(cfg: Config, s: State, s': State) {
    s.hist != [] && exists a :: Enabled(s, a) && Apply(cfg, s, a) == s'
  }

  /** Entry `i` of a run leads to the next one, if there is one. */
  ghost predicate StepAt(cfg: Config, run: seq<State>, i: nat) {
    i + 1 < |run| ==> Step(cfg, run[i], run[i + 1])
  }

  ghost predicate IsRun(cfg: Config, run: seq<State>) {
    && |run| > 0
    && (exists n: nat, now :: run[0] == Start(n, now))
    && forall i: nat :: StepAt(cfg, run, i)
  }

  ghost predicate Reachable(cfg: Config, s: State) {
    exists run :: IsRun(cfg, run) && run[|run| - 1] == s
  }
}
