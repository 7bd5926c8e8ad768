/** The circuit breaker as a sequential state machine over recorded outcomes, admitted probes and resets. */
module BreakerSpec {
  datatype Condition = Closed | Open | HalfOpen

  /** One immutable snapshot.  `lastFailedAt` is only meaningful in an open one. */
  datatype Snapshot = Snapshot(state: Condition, failures: nat, successes: nat, generation: nat, lastFailedAt: int)

  datatype Config = Config(maxFailures: int, resetTimeout: int, halfOpenSuccesses: int, slowCallThreshold: int)

  const DEFAULT_MAX_FAILURES := 5
  const DEFAULT_RESET_TIMEOUT := 30_000_000_000 // nanoseconds
  const DEFAULT_HALF_OPEN_SUCCESSES := 3

  predicate Sane(cfg: Config) {
    cfg.maxFailures >= 1 && cfg.resetTimeout >= 1 && cfg.halfOpenSuccesses >= 1
  }

  /** The settings `New` works with: a non-positive one is replaced by its default. */
  function WithDefaults(cfg: Config): (c: Config)
    ensures Sane(c)
    ensures c.maxFailures == if cfg.maxFailures >= 1 then cfg.maxFailures else 5
    ensures c.resetTimeout == if cfg.resetTimeout >= 1 then cfg.resetTimeout else 30_000_000_000
    ensures c.halfOpenSuccesses == if cfg.halfOpenSuccesses >= 1 then cfg.halfOpenSuccesses else 3
    ensures c.slowCallThreshold == cfg.slowCallThreshold
  {
    cfg.(maxFailures := if cfg.maxFailures <= 0 then DEFAULT_MAX_FAILURES else cfg.maxFailures,
         resetTimeout := if cfg.resetTimeout <= 0 then DEFAULT_RESET_TIMEOUT else cfg.resetTimeout,
         halfOpenSuccesses := if cfg.halfOpenSuccesses <= 0 then DEFAULT_HALF_OPEN_SUCCESSES else cfg.halfOpenSuccesses)
  }

  const INITIAL := Snapshot(Closed, 0, 0, 0, 0)

  /** What happens to the breaker.  `at` is the clock reading that came with it. */
  datatype Op = Success | Failure(at: int) | Probe(at: int) | Reset

  function OnSuccess(cfg: Config, s: Snapshot): Snapshot {
    match s.state
    case Closed => if s.failures == 0 then s else Snapshot(Closed, 0, 0, s.generation, 0)
    case HalfOpen =>
      if s.successes + 1 >= cfg.halfOpenSuccesses then Snapshot(Closed, 0, 0, s.generation + 1, 0)
      else Snapshot(HalfOpen, 0, s.successes + 1, s.generation, 0)
    case Open => s
  }

  function OnFailure(cfg: Config, s: Snapshot, at: int): Snapshot {
    match s.state
    case Closed =>
      if s.failures + 1 >= cfg.maxFailures then Snapshot(Open, s.failures + 1, 0, s.generation + 1, at)
      else Snapshot(Closed, s.failures + 1, 0, s.generation, 0)
    case HalfOpen => Snapshot(Open, 1, 0, s.generation + 1, at)
    case Open => s
  }

  predicate CooledDown(cfg: Config, s: Snapshot, at: int) {
    at - s.lastFailedAt >= cfg.resetTimeout
  }

  function Next(cfg: Config, s: Snapshot, op: Op): Snapshot {
    match op
    case Success => OnSuccess(cfg, s)
    case Failure(at) => OnFailure(cfg, s, at)
    case Probe(_) => Snapshot(HalfOpen, 0, 0, s.generation + 1, 0)
    case Reset => Snapshot(Closed, 0, 0, s.generation + 1, 0)
  }

  /** A probe is admitted only to an open breaker that has cooled down. */
  predicate Allowed(cfg: Config, s: Snapshot, op: Op) {
    op.Probe? ==> s.state.Open? && op.at - s.lastFailedAt >= cfg.resetTimeout
  }

  /** The breaker after `ops`. */
  function After(cfg: Config, ops: seq<Op>): Snapshot {
    if ops == [] then INITIAL else Next(cfg, After(cfg, ops[..|ops| - 1]), ops[|ops| - 1])
  }

  ghost predicate Legal(cfg: Config, ops: seq<Op>) {
    forall k :: 0 <= k < |ops| ==> Allowed(cfg, After(cfg, ops[..k]), ops[k])
  }

  /** One more operation. */
  lemma LegalExtend(cfg: Config, ops: seq<Op>, op: Op)
    requires Legal(cfg, ops) && Allowed(cfg, After(cfg, ops), op)
    ensures Legal(cfg, ops + [op]) && After(cfg, ops + [op]) == Next(cfg, After(cfg, ops), op)
  {
    var more := ops + [op];
    assert more[..|ops|] == ops;
    forall k | 0 <= k < |more|
      ensures Allowed(cfg, After(cfg, more[..k]), more[k])
    {
      assert k < |ops| ==> more[..k] == ops[..k];
    }
  }

  // ----- What the counters mean, without looking at snapshots -----

  /** How many failures have been recorded in a row, up to now. */
  function FailureRun(ops: seq<Op>): nat {
    if ops != [] && ops[|ops| - 1].Failure? then FailureRun(ops[..|ops| - 1]) + 1 else 0
  }

  /** How many successes have been recorded in a row, up to now. */
  function SuccessRun(ops: seq<Op>): nat {
    if ops != [] && ops[|ops| - 1].Success? then SuccessRun(ops[..|ops| - 1]) + 1 else 0
  }

  /** The breaker was opened by the failure `ops[k]`, and only outcomes were recorded since. */
  ghost predicate OpenedBy(cfg: Config, ops: seq<Op>, k: nat) {
    && k < |ops| && ops[k].Failure?
    && !After(cfg, ops[..k]).state.Open?
    && forall j :: k < j < |ops| ==> ops[j].Success? || ops[j].Failure?
  }

  /** The meaning of every snapshot, over all legal histories. */
  ghost predicate Means(cfg: Config, ops: seq<Op>, s: Snapshot) {
    match s.state
    case Closed => s.successes == 0 && s.failures == FailureRun(ops) < cfg.maxFailures
    case HalfOpen =>
      && s.failures == 0 && s.successes == SuccessRun(ops) < cfg.halfOpenSuccesses
      && s.successes < |ops| && ops[|ops| - 1 - s.successes].Probe?
    case Open =>
      && s.successes == 0 && (s.failures == 1 || s.failures == cfg.maxFailures)
      && exists k: nat :: OpenedBy(cfg, ops, k) && s.lastFailedAt == ops[k].at
  }

  lemma OpenMeans(cfg: Config, before: seq<Op>, op: Op)
    requires Sane(cfg) && Means(cfg, before, After(cfg, before))
    requires After(cfg, before + [op]).state.Open?
    ensures Means(cfg, before + [op], After(cfg, before + [op]))
  {
    var ops := before + [op];
    var n := |before|;
    assert ops[..n] == before;
    if After(cfg, before).state.Open? {
      var k: nat :| OpenedBy(cfg, before, k) && After(cfg, before).lastFailedAt == before[k].at;
      assert before[..k] == ops[..k];
      assert OpenedBy(cfg, ops, k);
    } else {
      assert OpenedBy(cfg, ops, n);
    }
  }

  lemma ClosedMeans(cfg: Config, before: seq<Op>, op: Op)
    requires Sane(cfg) && Means(cfg, before, After(cfg, before)) && Allowed(cfg, After(cfg, before), op)
    requires !After(cfg, before + [op]).state.Open?
    ensures Means(cfg, before + [op], After(cfg, before + [op]))
  {
    assert (before + [op])[..|before|] == before;
  }

  lemma LegalPrefix(cfg: Config, ops: seq<Op>, n: nat)
    requires Legal(cfg, ops) && n <= |ops|
    ensures Legal(cfg, ops[..n])
  {
    forall k | 0 <= k < n
      ensures Allowed(cfg, After(cfg, ops[..n][..k]), ops[..n][k])
    {
      assert ops[..n][..k] == ops[..k];
    }
  }

  lemma {:induction false} SnapshotMeans(cfg: Config, ops: seq<Op>)
    requires Sane(cfg) && Legal(cfg, ops)
    ensures Means(cfg, ops, After(cfg, ops))
  {
    if ops != [] {
      var n := |ops| - 1;
      LegalPrefix(cfg, ops, n);
      SnapshotMeans(cfg, ops[..n]);
      assert ops == ops[..n] + [ops[n]];
      if After(cfg, ops).state.Open? {
        OpenMeans(cfg, ops[..n], ops[n]);
      } else {
        ClosedMeans(cfg, ops[..n], ops[n]);
      }
    }
  }

  /** A closed breaker opens exactly when the `maxFailures`-th failure in a row is recorded. */
  lemma OpensAtThreshold(cfg: Config, ops: seq<Op>, at: int)
    requires Sane(cfg) && Legal(cfg, ops) && After(cfg, ops).state.Closed?
    ensures After(cfg, ops + [Failure(at)]).state.Open? <==> FailureRun(ops + [Failure(at)]) == cfg.maxFailures
  {
    SnapshotMeans(cfg, ops);
    assert (ops + [Failure(at)])[..|ops|] == ops;
  }

  /** A half-open breaker closes exactly when the `halfOpenSuccesses`-th success in a row is recorded, and opens
      again with any failure. */
  lemma ClosesAtThreshold(cfg: Config, ops: seq<Op>, at: int)
    requires Sane(cfg) && Legal(cfg, ops) && After(cfg, ops).state.HalfOpen?
    ensures After(cfg, ops + [Success]).state.Closed? <==> SuccessRun(ops + [Success]) == cfg.halfOpenSuccesses
    ensures !After(cfg, ops + [Success]).state.Open?
    ensures After(cfg, ops + [Failure(at)]).state.Open? && After(cfg, ops + [Failure(at)]).lastFailedAt == at
  {
    SnapshotMeans(cfg, ops);
    assert (ops + [Success])[..|ops|] == ops;
    assert (ops + [Failure(at)])[..|ops|] == ops;
  }
}
