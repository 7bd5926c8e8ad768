/** The breaker as an object, used by one thread at a time. */
module BreakerClass {
  import opened BreakerSpec
  import opened Options

  datatype Error = Error(code: int, canceled: bool)

  /** What the protected function did: it panicked, or returned with or without an error. */
  datatype Behaviour = Panicked | Returned(err: Option<Error>)

  /** One use of Execute: the clock readings in the order they are taken, whether the caller's context is canceled
      when the function returns, and what the function did. */
  datatype CallInfo =
    CallInfo(admitAt: int, startAt: int, endAt: int, recordAt: int, ctxCanceled: bool, does: Behaviour)

  datatype Reply = Rejected | Done(does: Behaviour)

  class Breaker {
    const cfg: Config
    const classify: Option<Error -> bool>
    var snap: Snapshot
    var probing: bool
    ghost var ops: seq<Op> // what has happened so far

    ghost predicate Valid()
      reads this
    {
      Sane(cfg) && Legal(cfg, ops) && snap == After(cfg, ops)
    }

    constructor (cfg: Config, classify: Option<Error -> bool>)
      ensures Valid() && this.cfg == WithDefaults(cfg) && this.classify == classify
      ensures snap == INITIAL && !probing && ops == []
    {
      this.cfg := WithDefaults(cfg);
      this.classify := classify;
      snap, probing, ops := INITIAL, false, [];
    }

    /** A slow call is a failure whatever it returned; otherwise an error is one if the configuration says so. */
    function IsFailure(err: Option<Error>, elapsed: int): bool {
      if cfg.slowCallThreshold > 0 && elapsed >= cfg.slowCallThreshold then true
      else if err.None? then false
      else if classify.Some? then classify.value(err.value)
      else true
    }

    ghost method Note(op: Op)
      requires Sane(cfg) && Legal(cfg, ops) && Allowed(cfg, After(cfg, ops), op)
      modifies `ops
      ensures ops == old(ops) + [op] && Legal(cfg, ops) && After(cfg, ops) == Next(cfg, After(cfg, old(ops)), op)
    {
      LegalExtend(cfg, ops, op);
      ops := ops + [op];
    }

    method CompareAndSwap(cur: Snapshot, next: Snapshot) returns (ok: bool)
      modifies `snap
      ensures ok == (old(snap) == cur) && snap == if ok then next else old(snap)
    {
      ok := snap == cur;
      if ok {
        snap := next;
      }
    }

    /** Admission: always while closed, after the cooldown while open, and only into a free slot unless closed. */
    method Allow(now: int) returns (isProbe: bool, admitted: bool)
      requires Valid()
      modifies `snap, `probing, `ops
      ensures Valid()
      ensures old(snap).state.Closed? ==> admitted
      ensures old(snap).state.Open? ==>
                (admitted <==> !old(probing) && now - old(snap).lastFailedAt >= cfg.resetTimeout)
      ensures old(snap).state.HalfOpen? ==> (admitted <==> !old(probing))
      ensures isProbe <==> admitted && !old(snap).state.Closed?
      ensures probing == (old(probing) || isProbe)
      ensures ops == old(ops) + if isProbe && old(snap).state.Open? then [Probe(now)] else []
    {
      isProbe, admitted := false, false;
      var decided := false;
      while !decided
        invariant !decided ==> snap == old(snap) && probing == old(probing) && ops == old(ops) && !isProbe && !admitted
        invariant decided ==> Valid() && probing == (old(probing) || isProbe)
        invariant decided ==> (isProbe <==> admitted && !old(snap).state.Closed?)
        invariant decided && old(snap).state.Closed? ==> admitted
        invariant decided && old(snap).state.Open? ==>
                    (admitted <==> !old(probing) && now - old(snap).lastFailedAt >= cfg.resetTimeout)
        invariant decided && old(snap).state.HalfOpen? ==> (admitted <==> !old(probing))
        invariant decided ==> ops == old(ops) + if isProbe && old(snap).state.Open? then [Probe(now)] else []
        decreases !decided
      {
        var cur := snap;
        match cur.state {
          case Closed =>
            admitted, decided := true, true;
          case Open =>
            if !CooledDown(cfg, cur, now) || probing {
              decided := true;
            } else {
              probing := true;
              decided := CompareAndSwap(cur, Snapshot(HalfOpen, 0, 0, cur.generation + 1, 0));
              if decided {
                Note(Probe(now));
                isProbe, admitted := true, true;
              } else {
                probing := false;
              }
            }
          case HalfOpen =>
            if probing {
              decided := true;
            } else {
              probing := true;
              if snap.state != HalfOpen {
                probing := false;
              } else {
                isProbe, admitted, decided := true, true, true;
              }
            }
        }
      }
    }

    method RecordSuccess()
      requires Valid()
      modifies `snap, `ops
      ensures Valid() && ops == old(ops) + [Success]
    {
      var done := false;
      while !done
        invariant !done ==> snap == old(snap)
        invariant done ==> snap == OnSuccess(cfg, old(snap))
        invariant ops == old(ops)
        decreases !done
      {
        var cur := snap;
        match cur.state {
          case Closed =>
            if cur.failures == 0 {
              done := true;
            } else {
              done := CompareAndSwap(cur, Snapshot(Closed, 0, 0, cur.generation, 0));
            }
          case HalfOpen =>
            var successes := cur.successes + 1;
            if successes >= cfg.halfOpenSuccesses {
              done := CompareAndSwap(cur, Snapshot(Closed, 0, 0, cur.generation + 1, 0));
            } else {
              done := CompareAndSwap(cur, Snapshot(HalfOpen, 0, successes, cur.generation, 0));
            }
          case Open =>
            done := true;
        }
      }
      Note(Success);
    }

    method RecordFailure(now: int)
      requires Valid()
      modifies `snap, `ops
      ensures Valid() && ops == old(ops) + [Failure(now)]
    {
      var done := false;
      while !done
        invariant !done ==> snap == old(snap)
        invariant done ==> snap == OnFailure(cfg, old(snap), now)
        invariant ops == old(ops)
        decreases !done
      {
        var cur := snap;
        match cur.state {
          case Closed =>
            var failures := cur.failures + 1;
            if failures >= cfg.maxFailures {
              done := CompareAndSwap(cur, Snapshot(Open, failures, 0, cur.generation + 1, now));
            } else {
              done := CompareAndSwap(cur, Snapshot(Closed, failures, 0, cur.generation, 0));
            }
          case HalfOpen =>
            done := CompareAndSwap(cur, Snapshot(Open, 1, 0, cur.generation + 1, now));
          case Open =>
            done := true;
        }
      }
      Note(Failure(now));
    }

    method Reset()
      requires Valid()
      modifies `snap, `ops
      ensures Valid() && ops == old(ops) + [Op.Reset] && snap.state.Closed? && snap.failures == 0
    {
      var done := false;
      while !done
        invariant !done ==> snap == old(snap)
        invariant done ==> snap == Snapshot(Closed, 0, 0, old(snap).generation + 1, 0)
        invariant ops == old(ops)
        decreases !done
      {
        var cur := snap;
        done := CompareAndSwap(cur, Snapshot(Closed, 0, 0, cur.generation + 1, 0));
      }
      Note(Op.Reset);
    }

    /** The part of `Execute` after the protected function has returned or panicked: a panic and a slow call are
        failures, a fast call without an error is a success, a fast error is what the configuration makes of it, and
        a call canceled by its caller is neither. */
    method RecordOutcome(call: CallInfo) returns (ghost added: seq<Op>)
      requires Valid()
      modifies `snap, `ops
      ensures Valid() && ops == old(ops) + added
      ensures call.does.Panicked? ==> added == [Failure(call.recordAt)]
      ensures call.does == Returned(None) ==>
                added == if cfg.slowCallThreshold <= 0 || call.endAt - call.startAt < cfg.slowCallThreshold
                         then [Success] else [Failure(call.recordAt)]
      ensures call.does.Returned? && call.does.err.Some? ==>
                var e := call.does.err.value;
                added == if call.ctxCanceled && e.canceled then []
                         else if cfg.slowCallThreshold > 0 && call.endAt - call.startAt >= cfg.slowCallThreshold
                         then [Failure(call.recordAt)]
                         else if classify.None? || classify.value(e) then [Failure(call.recordAt)]
                         else [Success]
    {
      added := [];
      match call.does {
        case Panicked =>
          RecordFailure(call.recordAt);
          added := [Failure(call.recordAt)];
        case Returned(err) =>
          var elapsed := call.endAt - call.startAt;
          if !(err.Some? && call.ctxCanceled && err.value.canceled) {
            if IsFailure(err, elapsed) {
              RecordFailure(call.recordAt);
              added := [Failure(call.recordAt)];
            } else {
              RecordSuccess();
              added := [Success];
            }
          }
      }
    }

    /** A protected call is rejected without effect, or admitted, recorded once unless neutral, and its probe slot is
        free again afterwards, whatever the function did. */
    method Execute(call: CallInfo) returns (reply: Reply, ghost added: seq<Op>)
      requires Valid()
      modifies `snap, `probing, `ops
      ensures Valid() && probing == old(probing)
      ensures reply == Rejected || reply == Done(call.does)
      ensures old(snap).state.Closed? ==> reply.Done?
      ensures old(snap).state.Open? ==>
                (reply.Done? <==> !old(probing) && call.admitAt - old(snap).lastFailedAt >= cfg.resetTimeout)
      ensures old(snap).state.HalfOpen? ==> (reply.Done? <==> !old(probing))
      ensures reply.Rejected? ==> ops == old(ops)
      ensures reply.Done? ==>
                ops == old(ops) + (if old(snap).state.Open? then [Probe(call.admitAt)] else []) + added
      ensures reply.Done? && call.does.Panicked? ==> added == [Failure(call.recordAt)]
      ensures reply.Done? && call.does == Returned(None) ==>
                added == if cfg.slowCallThreshold <= 0 || call.endAt - call.startAt < cfg.slowCallThreshold
                         then [Success] else [Failure(call.recordAt)]
      ensures reply.Done? && call.does.Returned? && call.does.err.Some? ==>
                var e := call.does.err.value;
                added == if call.ctxCanceled && e.canceled then []
                         else if cfg.slowCallThreshold > 0 && call.endAt - call.startAt >= cfg.slowCallThreshold
                         then [Failure(call.recordAt)]
                         else if classify.None? || classify.value(e) then [Failure(call.recordAt)]
                         else [Success]
    {
      added := [];
      var isProbe, admitted := Allow(call.admitAt);
      if !admitted {
        return Rejected, [];
      }
      added := RecordOutcome(call);
      if isProbe {
        probing := false;
      }
      reply := Done(call.does);
    }
  }
}
