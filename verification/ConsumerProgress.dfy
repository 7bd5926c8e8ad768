/** Waiting always ends: `awaitWorkers` is never stuck, and neither it nor a blocked send lasts forever. */
module ConsumerProgress {
  import opened ConsumerModel
  import opened ConsumerInvariant

  /** The sum of `f` over the workers. */
  ghost function Sum(ws: seq<Worker>, f: Worker -> nat): nat {
    if ws == [] then 0 else Sum(ws[..|ws| - 1], f) + f(ws[|ws| - 1])
  }

  lemma {:induction false} SumUpdate(ws: seq<Worker>, f: Worker -> nat, w: nat, v: Worker)
    requires w < |ws|
    ensures Sum(ws[w := v], f) + f(ws[w]) == Sum(ws, f) + f(v)
  {
    var n := |ws| - 1;
    if w == n {
      assert ws[w := v][..n] == ws[..n];
    } else {
      assert ws[w := v][..n] == ws[..n][w := v];
      SumUpdate(ws[..n], f, w, v);
    }
  }

  /** How much is left to do for one worker: each of its messages has to be received, handled and sent. */
  ghost function Weight(w: Worker): nat {
    4 * |w.ch| + match w.phase
                 case Handling(_) => 5
                 case Sending(_) => 4
                 case Waiting => 2
                 case Finished => 1
                 case Exited => 0
  }

  ghost function WaiterWeight(waiter: Waiter): nat {
    match waiter
    case OnWorkers(rest) => |rest| + 1
    case OnGroup => 1
    case _ => 0
  }

  /** The number of steps that can be taken while the poll goroutine sends, or waits for workers to stop. */
  ghost function Work(s: State): nat {
    Sum(s.ws, Weight) + |s.commitCh| + WaiterWeight(s.waiter)
    + (if s.cancelled then 0 else 1) + (if s.pc.Awaiting? && !s.pc.final then 1 else 0)
  }

  /** The poll goroutine is sending to a worker or waiting for workers to stop. */
  predicate Busy(s: State) { s.pc.Dispatching? || s.pc.Awaiting? }

  lemma WorkerLighter(B: nat, s: State, a: Action)
    requires Enabled(B, s, a) && (a.Receive? || a.HandlerReturn? || a.SendCommit? || a.SeeClosed? || a.Exit?)
    ensures var t := Apply(B, s, a);
            && t == s.(ws := t.ws, commitCh := t.commitCh, handled := t.handled)
            && |t.ws| == |s.ws| && t.ws == s.ws[a.w := t.ws[a.w]]
            && Weight(t.ws[a.w]) + |t.commitCh| < Weight(s.ws[a.w]) + |s.commitCh|
  {
  }

  lemma WorkerWork(B: nat, s: State, a: Action)
    requires Enabled(B, s, a) && (a.Receive? || a.HandlerReturn? || a.SendCommit? || a.SeeClosed? || a.Exit?)
    ensures Work(Apply(B, s, a)) < Work(s)
  {
    WorkerLighter(B, s, a);
    SumUpdate(s.ws, Weight, a.w, Apply(B, s, a).ws[a.w]);
  }

  lemma WorkShrinks(B: nat, s: State, a: Action)
    requires Busy(s) && Enabled(B, s, a) && Busy(Apply(B, s, a))
    ensures Work(Apply(B, s, a)) < Work(s)
  {
    if a.Receive? || a.HandlerReturn? || a.SendCommit? || a.SeeClosed? || a.Exit? {
      WorkerWork(B, s, a);
    }
  }

  lemma BusyStep(B: nat, s: State, s': State)
    requires Step(B, s, s') && Busy(s) && Busy(s')
    ensures Work(s') < Work(s)
  {
    var a :| Enabled(B, s, a) && Apply(B, s, a) == s';
    WorkShrinks(B, s, a);
  }

  /** A stretch of a run in which the poll goroutine stays busy is no longer than the work at its start. */
  lemma {:induction false} BusyEnds(B: nat, run: seq<State>, i: nat, j: nat)
    requires IsRun(B, run) && i <= j < |run|
    requires forall k :: i <= k <= j ==> Busy(run[k])
    ensures j - i + Work(run[j]) <= Work(run[i])
    decreases j
  {
    if i < j {
      BusyEnds(B, run, i, j - 1);
      assert StepAt(B, run, j - 1);
      BusyStep(B, run[j - 1], run[j]);
    }
  }

  /** Some goroutine can move: the poll goroutine, its helper, or a worker. */
  ghost predicate CanMove(B: nat, s: State) {
    exists a :: Enabled(B, s, a) && !a.Cancel?
  }

  /** A closed or idle-channel worker can always move when the commit channel is empty. */
  lemma ClosedCanMove(B: nat, s: State, w: nat)
    requires B >= 1 && w < |s.ws| && s.commitCh == []
    requires s.ws[w].closed && !s.ws[w].phase.Exited?
    ensures CanMove(B, s)
  {
    var a := match s.ws[w].phase
      case Waiting => if s.ws[w].ch == [] then SeeClosed(w) else Receive(w)
      case Handling(_) => HandlerReturn(w)
      case Sending(_) => SendCommit(w)
      case _ => Exit(w);
    assert Enabled(B, s, a);
  }

  /** `awaitWorkers` is never stuck, for any channel size and any number of workers. */
  lemma AwaitNeverStuck(B: nat, s: State)
    requires B >= 1 && Reachable(B, s) && s.pc.Awaiting?
    ensures CanMove(B, s)
  {
    InvReachable(B, s);
    if s.commitCh != [] {
      assert Enabled(B, s, RecvCommit);
    } else if s.pc.final {
      assert Enabled(B, s, AwaitReturn);
    } else if s.waiter.DoneClosed? {
      assert Enabled(B, s, AwaitDone);
    } else if WaiterReady(s) {
      assert Enabled(B, s, WaiterStep);
    } else {
      var w: nat :| w < |s.ws| && !s.ws[w].phase.Exited? && (s.pc.ending || s.ws[w].closed) by {
        if !s.pc.ending {
          assert s.waiter.rest[0] in s.pc.targets;
        }
      }
      assert Registered(s.ws[w], w, s.workers, s.latest);
      ClosedCanMove(B, s, w);
    }
  }
}
