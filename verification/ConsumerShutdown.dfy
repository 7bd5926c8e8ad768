/** Cancellation, fatal errors and revocation: what starts a shutdown or a revocation, that nothing else starts a
    shutdown, what the one and the other do to the workers, and that both can always be finished. */
module ConsumerShutdown {
  import opened ConsumerModel
  import opened ConsumerInvariant
  import opened ConsumerProgress
  import opened ConsumerSafety

  // ----- A shutdown that has begun goes on -----

  /** The context was cancelled before a turn of the loop, or a fatal error is being handled, or what follows from
      it. */
  predicate Ending(s: State) {
    || (s.pc.Top? && s.cancelled)
    || (s.pc.Draining? && s.pc.ev.Fatal?)
    || (s.pc.Awaiting? && s.pc.ending)
    || s.pc.Stopped?
  }

  lemma EndingKept(B: nat, s: State, a: Action)
    requires Enabled(B, s, a) && Ending(s)
    ensures Ending(Apply(B, s, a)) && Apply(B, s, a).log == s.log
  {
  }

  lemma EndingStep(B: nat, s: State, s': State)
    requires Step(B, s, s') && Ending(s)
    ensures Ending(s') && s'.log == s.log
  {
    var a :| Enabled(B, s, a) && Apply(B, s, a) == s';
    EndingKept(B, s, a);
  }

  /** After a cancellation seen at the loop head, and after a fatal error, the consumer never polls again and gets no
      further message. */
  lemma {:induction false} NoPollAfterEnd(B: nat, run: seq<State>, i: nat, j: nat)
    requires IsRun(B, run) && i <= j < |run|
    requires (run[i].pc.Top? && run[i].cancelled) || (run[i].pc.Draining? && run[i].pc.ev.Fatal?)
    ensures !run[j].pc.Polling? && run[j].log == run[i].log && Ending(run[j])
    decreases j
  {
    if i < j {
      NoPollAfterEnd(B, run, i, j - 1);
      assert StepAt(B, run, j - 1);
      EndingStep(B, run[j - 1], run[j]);
    }
  }

  // ----- It ends -----

  lemma {:induction false} CloseAllWeight(ws: seq<Worker>, ws': seq<Worker>)
    requires |ws'| == |ws| && forall i :: 0 <= i < |ws| ==> ws'[i].ch == ws[i].ch && ws'[i].phase == ws[i].phase
    ensures Sum(ws', Weight) == Sum(ws, Weight)
  {
    if ws != [] {
      CloseAllWeight(ws[..|ws| - 1], ws'[..|ws| - 1]);
    }
  }

  /** The steps a shutdown can still take. */
  ghost function EndWork(s: State): nat {
    Work(s) + if s.pc.Awaiting? || s.pc.Stopped? then 0 else 3
  }

  lemma ShutdownWork(s: State)
    requires s.waiter.NoWaiter? && !s.pc.Awaiting?
    ensures EndWork(Shutdown(s)) < Work(s) + 3
  {
    CloseAllWeight(s.ws, Shutdown(s).ws);
  }

  lemma EndWorkShrinks(B: nat, s: State, a: Action)
    requires Enabled(B, s, a) && Ending(s) && !s.pc.Stopped? && !Apply(B, s, a).pc.Stopped?
    requires WaiterOk(s.pc, s.waiter, s.ws)
    ensures EndWork(Apply(B, s, a)) < EndWork(s)
  {
    if a.Receive? || a.HandlerReturn? || a.SendCommit? || a.SeeClosed? || a.Exit? {
      WorkerWork(B, s, a);
    } else if a.CheckCtx? {
      ShutdownWork(s);
    } else if a.DrainDefault? {
      ShutdownWork(s.(commits := s.commits + s.pc.pending.Values));
    }
  }

  lemma EndWorkStep(B: nat, run: seq<State>, i: nat)
    requires IsRun(B, run) && i + 1 < |run| && Ending(run[i]) && !run[i].pc.Stopped? && !run[i + 1].pc.Stopped?
    ensures EndWork(run[i + 1]) < EndWork(run[i])
  {
    InvAlways(B, run, i);
    assert StepAt(B, run, i);
    var a :| Enabled(B, run[i], a) && Apply(B, run[i], a) == run[i + 1];
    EndWorkShrinks(B, run[i], a);
  }

  lemma PrefixIsRun(B: nat, run: seq<State>, n: nat)
    requires IsRun(B, run) && 0 < n <= |run|
    ensures IsRun(B, run[..n])
  {
    forall i: nat ensures StepAt(B, run[..n], i) {
      assert StepAt(B, run, i);
    }
  }

  lemma RunReaches(B: nat, run: seq<State>, j: nat)
    requires IsRun(B, run) && j < |run|
    ensures Reachable(B, run[j])
  {
    PrefixIsRun(B, run, j + 1);
    assert run[..j + 1][|run[..j + 1]| - 1] == run[j];
  }

  lemma EndingMoves(B: nat, s: State)
    requires B >= 1 && Reachable(B, s) && Ending(s) && !s.pc.Stopped?
    ensures CanMove(B, s)
  {
    if s.pc.Top? {
      assert Enabled(B, s, CheckCtx);
    } else if s.pc.Draining? {
      assert Enabled(B, s, if s.commitCh == [] then DrainDefault else RecvCommit);
    } else {
      AwaitNeverStuck(B, s);
    }
  }

  lemma StoppedKept(B: nat, s: State, a: Action)
    requires Enabled(B, s, a) && s.pc.Stopped?
    ensures Apply(B, s, a).pc.Stopped?
  {
  }

  lemma NotStoppedBefore(B: nat, run: seq<State>, i: nat)
    requires IsRun(B, run) && i + 1 < |run| && !run[i + 1].pc.Stopped?
    ensures !run[i].pc.Stopped?
  {
    assert StepAt(B, run, i);
    var a :| Enabled(B, run[i], a) && Apply(B, run[i], a) == run[i + 1];
    if run[i].pc.Stopped? {
      StoppedKept(B, run[i], a);
    }
  }

  /** Every shutdown ends: as long as it has not, no more steps have been taken since it began than there was work, and
      some step can still be taken. */
  lemma {:induction false} ShutdownEnds(B: nat, run: seq<State>, i: nat, j: nat)
    requires B >= 1 && IsRun(B, run) && i <= j < |run| && !run[j].pc.Stopped?
    requires (run[i].pc.Top? && run[i].cancelled) || (run[i].pc.Draining? && run[i].pc.ev.Fatal?)
    ensures j - i + EndWork(run[j]) <= EndWork(run[i]) && CanMove(B, run[j])
    decreases j
  {
    NoPollAfterEnd(B, run, i, j);
    RunReaches(B, run, j);
    EndingMoves(B, run[j]);
    if i < j {
      NoPollAfterEnd(B, run, i, j - 1);
      NotStoppedBefore(B, run, j - 1);
      ShutdownEnds(B, run, i, j - 1);
      EndWorkStep(B, run, j - 1);
    }
  }

  // ----- Continuations -----

  ghost predicate Path(B: nat, path: seq<State>, s: State, t: State) {
    && |path| > 0 && path[0] == s && path[|path| - 1] == t
    && forall i: nat :: StepAt(B, path, i)
  }

  /** Some sequence of steps leads from `s` to `t`. */
  ghost predicate Leads(B: nat, s: State, t: State) {
    exists path :: Path(B, path, s, t)
  }

  lemma LeadsNowhere(B: nat, s: State)
    ensures Leads(B, s, s)
  {
    assert Path(B, [s], s, s);
  }

  lemma StepFirst(B: nat, s: State, a: Action, t: State)
    requires Enabled(B, s, a) && Leads(B, Apply(B, s, a), t)
    ensures Leads(B, s, t)
  {
    var path :| Path(B, path, Apply(B, s, a), t);
    var longer := [s] + path;
    forall i: nat
      ensures StepAt(B, longer, i)
    {
      if i > 0 {
        assert StepAt(B, path, i - 1);
      }
    }
    assert Path(B, longer, s, t);
  }

  lemma {:induction false} EndingStops(B: nat, s: State) returns (t: State)
    requires B >= 1 && Reachable(B, s) && Ending(s)
    ensures Leads(B, s, t) && t.pc.Stopped?
    decreases if s.pc.Stopped? then 0 else EndWork(s) + 1
  {
    if s.pc.Stopped? {
      t := s;
      LeadsNowhere(B, s);
    } else {
      EndingMoves(B, s);
      InvReachable(B, s);
      var a :| Enabled(B, s, a) && !a.Cancel?;
      Extend(B, s, a);
      EndingKept(B, s, a);
      if !Apply(B, s, a).pc.Stopped? {
        EndWorkShrinks(B, s, a);
      }
      t := EndingStops(B, Apply(B, s, a));
      StepFirst(B, s, a, t);
    }
  }

  /** From every state in which the context was cancelled before a turn of the loop, or a fatal error is being handled,
      the consumer can go on until it has stopped. */
  lemma StopReached(B: nat, s: State)
    requires B >= 1 && Reachable(B, s)
    requires (s.pc.Top? && s.cancelled) || (s.pc.Draining? && s.pc.ev.Fatal?)
    ensures exists t :: Leads(B, s, t) && t.pc.Stopped?
  {
    var t := EndingStops(B, s);
  }

  lemma OnlyDefaultLeaves(B: nat, s: State, a: Action)
    requires Enabled(B, s, a) && s.pc.Draining? && !Apply(B, s, a).pc.Draining?
    ensures a.DrainDefault?
  {
  }

  lemma OnlyFatalEnds(s: State, ev: Event)
    ensures !Handle(s, ev).pc.Stopped?
    ensures Handle(s, ev).pc.Awaiting? && Handle(s, ev).pc.ending ==> ev.Fatal?
  {
  }

  lemma EndingBegins(B: nat, s: State, a: Action)
    requires Enabled(B, s, a)
    requires (Apply(B, s, a).pc.Awaiting? && Apply(B, s, a).pc.ending) || Apply(B, s, a).pc.Stopped?
    ensures Ending(s)
  {
    if s.pc.Draining? {
      OnlyDefaultLeaves(B, s, a);
      OnlyFatalEnds(s.(commits := s.commits + s.pc.pending.Values), s.pc.ev);
    }
  }

  lemma EndingBefore(B: nat, run: seq<State>, j: nat)
    requires IsRun(B, run) && j < |run| && ((run[j].pc.Awaiting? && run[j].pc.ending) || run[j].pc.Stopped?)
    ensures j > 0 && Ending(run[j - 1])
  {
    assert StepAt(B, run, j - 1);
    var a :| Enabled(B, run[j - 1], a) && Apply(B, run[j - 1], a) == run[j];
    EndingBegins(B, run[j - 1], a);
  }

  /** The consumer stops for no other reason. */
  lemma {:induction false} StopsOnlyWhenAsked(B: nat, run: seq<State>, j: nat) returns (i: nat)
    requires IsRun(B, run) && j < |run| && ((run[j].pc.Awaiting? && run[j].pc.ending) || run[j].pc.Stopped?)
    ensures i < j && ((run[i].pc.Top? && run[i].cancelled) || (run[i].pc.Draining? && run[i].pc.ev.Fatal?))
    decreases j
  {
    EndingBefore(B, run, j);
    if run[j - 1].pc.Top? || run[j - 1].pc.Draining? {
      i := j - 1;
    } else {
      i := StopsOnlyWhenAsked(B, run, j - 1);
    }
  }

  // ----- What the poll goroutine does with an event -----

  /** How a turn of the loop ends: it leaves the drain with its pending offsets handed over, and nothing received. */
  ghost predicate LeavesDrain(B: nat, s: State, s': State) {
    Reachable(B, s) && s.pc.Draining? && Step(B, s, s') && !s'.pc.Draining?
  }

  lemma DrainLeft(B: nat, s: State, s': State)
    requires LeavesDrain(B, s, s')
    ensures s.commitCh == [] && s' == Handle(s.(commits := s.commits + s.pc.pending.Values), s.pc.ev)
  {
    var a :| Enabled(B, s, a) && Apply(B, s, a) == s';
    OnlyDefaultLeaves(B, s, a);
  }

  /** No event, an assignment, a report about commits, or an error that is not fatal: nothing but the commit happens. */
  lemma OtherEventsPass(B: nat, s: State, s': State)
    requires LeavesDrain(B, s, s') && (s.pc.ev.NoEvent? || s.pc.ev.OtherEvent?)
    ensures s' == s.(pc := Top, commits := s.commits + s.pc.pending.Values)
  {
    DrainLeft(B, s, s');
  }

  /** A message is sent to the one worker registered for its partition, which is started if there was none. */
  lemma MessageToItsWorker(B: nat, s: State, s': State)
    requires LeavesDrain(B, s, s') && s.pc.ev.Message?
    ensures s'.pc.Dispatching? && s'.pc.m == s.pc.ev.m
    ensures s'.pc.m.tp in s'.workers && s'.workers[s'.pc.m.tp] == s'.pc.w
    ensures var tp := s.pc.ev.m.tp;
            if tp in s.workers then s'.ws == s.ws && s'.workers == s.workers
            else s'.ws == s.ws + [Worker(tp, [], false, Waiting)] && s'.workers == s.workers[tp := |s.ws|]
  {
    DrainLeft(B, s, s');
  }

  lemma ClosedAll(s: State)
    requires MapOk(s.ws, s.workers, s.latest, s.open)
    ensures |Shutdown(s).ws| == |s.ws|
    ensures forall w :: 0 <= w < |s.ws| ==> Shutdown(s).ws[w] == s.ws[w].(closed := true)
  {
    forall w | 0 <= w < |s.ws|
      ensures Shutdown(s).ws[w] == s.ws[w].(closed := true)
    {
      assert Registered(s.ws[w], w, s.workers, s.latest);
    }
  }

  lemma OnlyCheckLeavesTop(B: nat, s: State, a: Action)
    requires Enabled(B, s, a) && s.pc.Top? && !Apply(B, s, a).pc.Top?
    ensures a.CheckCtx?
  {
  }

  /** A cancellation closes every worker and unregisters it as soon as the poll goroutine leaves the loop head. */
  lemma CancelCloses(B: nat, s: State, s': State)
    requires Reachable(B, s) && s.pc.Top? && s.cancelled && Step(B, s, s') && !s'.pc.Top?
    ensures s'.pc.Awaiting? && s'.pc.ending && s'.workers == map[] && |s'.ws| == |s.ws|
    ensures forall w :: 0 <= w < |s.ws| ==> s'.ws[w] == s.ws[w].(closed := true)
  {
    var a :| Enabled(B, s, a) && Apply(B, s, a) == s';
    OnlyCheckLeavesTop(B, s, a);
    InvReachable(B, s);
    ClosedAll(s);
  }

  /** A fatal error does the same once the offsets that were waiting are handed over. */
  lemma FatalCloses(B: nat, s: State, s': State)
    requires LeavesDrain(B, s, s') && s.pc.ev.Fatal?
    ensures s'.commits == s.commits + s.pc.pending.Values
    ensures s'.pc.Awaiting? && s'.pc.ending && s'.workers == map[] && |s'.ws| == |s.ws|
    ensures forall w :: 0 <= w < |s.ws| ==> s'.ws[w] == s.ws[w].(closed := true)
  {
    DrainLeft(B, s, s');
    InvReachable(B, s);
    ClosedAll(s);
  }

  lemma RevokedWorkers(s: State, parts: seq<TP>)
    requires MapOk(s.ws, s.workers, s.latest, s.open)
    ensures var ws := StopWorkers(s, parts).ws;
            && |ws| == |s.ws|
            && forall w :: 0 <= w < |s.ws| ==> ws[w] == s.ws[w].(closed := s.ws[w].closed || s.ws[w].tp in parts)
  {
    forall w | 0 <= w < |s.ws|
      ensures StopWorkers(s, parts).ws[w] == s.ws[w].(closed := s.ws[w].closed || s.ws[w].tp in parts)
    {
      assert Registered(s.ws[w], w, s.workers, s.latest);
    }
  }

  lemma RevokedAwaited(s: State, parts: seq<TP>)
    ensures var s' := StopWorkers(s, parts);
            if exists tp :: tp in parts && tp in s.workers
            then s'.pc.Awaiting? && !s'.pc.ending && forall t :: t in s'.pc.targets <==>
                   exists tp :: tp in parts && tp in s.workers && s.workers[tp] == t
            else s'.pc.Top?
  {
    TargetsAre(s.workers, parts);
    assert Targets(s.workers, parts) != [] ==> Targets(s.workers, parts)[0] in Targets(s.workers, parts);
  }

  /** A revocation closes and unregisters the workers of the revoked partitions and no others, and waits exactly for
      those that were registered. */
  lemma RevocationCloses(B: nat, s: State, s': State, parts: seq<TP>)
    requires LeavesDrain(B, s, s') && s.pc.ev == Revoked(parts)
    ensures s'.log == s.log && s'.commitCh == [] && s'.commits == s.commits + s.pc.pending.Values
    ensures |s'.ws| == |s.ws|
    ensures forall w :: 0 <= w < |s.ws| ==> s'.ws[w] == s.ws[w].(closed := s.ws[w].closed || s.ws[w].tp in parts)
    ensures forall tp :: tp in s'.workers <==> tp in s.workers && tp !in parts
    ensures forall tp :: tp in s'.workers ==> s'.workers[tp] == s.workers[tp]
    ensures forall tp :: tp in s'.open <==> tp in s.open && tp !in parts
    ensures if exists tp :: tp in parts && tp in s.workers
            then s'.pc.Awaiting? && !s'.pc.ending && forall t :: t in s'.pc.targets <==>
                   exists tp :: tp in parts && tp in s.workers && s.workers[tp] == t
            else s'.pc.Top?
  {
    DrainLeft(B, s, s');
    InvReachable(B, s);
    RevokedWorkers(s.(commits := s.commits + s.pc.pending.Values), parts);
    RevokedAwaited(s.(commits := s.commits + s.pc.pending.Values), parts);
  }

  /** What the broker may deliver next: any offset of a partition it has not assigned, so after a revocation also
      one that was delivered before, and any larger one of a partition it has. */
  lemma MayDeliver(B: nat, s: State, tp: TP, off: int)
    requires Reachable(B, s) && s.pc.Polling?
    ensures tp !in s.open || (forall j :: 0 <= j < |s.log| && s.log[j].tp == tp ==> s.log[j].off < off) ==>
              Enabled(B, s, PollEvent(Message(Msg(|s.log|, tp, off))))
  {
  }

  lemma AwaitMoves(B: nat, s: State, a: Action)
    requires Enabled(B, s, a) && !a.Cancel? && s.pc.Awaiting? && !s.pc.ending
    ensures Apply(B, s, a).workers == s.workers && Apply(B, s, a).log == s.log
    ensures if a.AwaitReturn? then Apply(B, s, a).pc.Top? && Apply(B, s, a).commitCh == []
            else Apply(B, s, a).pc.Awaiting? && !Apply(B, s, a).pc.ending
  {
  }

  lemma {:induction false} AwaitReturns(B: nat, s: State) returns (t: State)
    requires B >= 1 && Reachable(B, s) && s.pc.Awaiting? && !s.pc.ending
    ensures Leads(B, s, t) && Reachable(B, t)
    ensures t.pc.Top? && t.commitCh == [] && t.workers == s.workers && t.log == s.log
    decreases Work(s)
  {
    AwaitNeverStuck(B, s);
    var a :| Enabled(B, s, a) && !a.Cancel?;
    Extend(B, s, a);
    AwaitMoves(B, s, a);
    t := Apply(B, s, a);
    if a.AwaitReturn? {
      LeadsNowhere(B, t);
    } else {
      WorkShrinks(B, s, a);
      t := AwaitReturns(B, t);
    }
    StepFirst(B, s, a, t);
  }

  lemma {:induction false} DrainEnds(B: nat, s: State, parts: seq<TP>) returns (t: State)
    requires B >= 1 && Reachable(B, s) && s.pc.Draining? && s.pc.ev == Revoked(parts)
    ensures Leads(B, s, t) && Reachable(B, t) && t.pc.Top? && t.commitCh == [] && t.log == s.log
    ensures forall tp :: tp in t.workers <==> tp in s.workers && tp !in parts
    ensures forall tp :: tp in t.workers ==> t.workers[tp] == s.workers[tp]
    decreases |s.commitCh|
  {
    var a := if s.commitCh == [] then DrainDefault else RecvCommit;
    Extend(B, s, a);
    t := Apply(B, s, a);
    if s.commitCh != [] {
      t := DrainEnds(B, t, parts);
    } else {
      assert Step(B, s, t);
      RevocationCloses(B, s, t, parts);
      if t.pc.Awaiting? {
        t := AwaitReturns(B, t);
      } else {
        LeadsNowhere(B, t);
      }
    }
    StepFirst(B, s, a, t);
  }

  /** From every state in which a revocation is being handled, the consumer can go on until it is back at the head
      of its loop with every revoked partition settled and the other registrations as they were. */
  lemma RevocationSettles(B: nat, s: State, parts: seq<TP>)
    requires B >= 1 && Reachable(B, s) && s.pc.Draining? && s.pc.ev == Revoked(parts)
    ensures exists t :: Leads(B, s, t) && t.pc.Top? && t.log == s.log
              && (forall tp :: tp in parts ==> tp !in t.workers && Settled(t, tp))
              && forall tp :: tp !in parts && tp in s.workers ==> tp in t.workers && t.workers[tp] == s.workers[tp]
  {
    var t := DrainEnds(B, s, parts);
    InvReachable(B, t);
    forall tp | tp in parts
      ensures Settled(t, tp)
    {
      UnregisteredSettled(t, tp);
    }
  }
}
