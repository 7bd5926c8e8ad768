/** Backpressure: exactly when the poll goroutine and the workers can block each other for good. */
module ConsumerDeadlock {
  import opened ConsumerModel
  import opened ConsumerInvariant
  import opened ConsumerProgress

  /** The messages a worker still has to send an offset for. */
  ghost function Load(w: Worker): nat {
    |w.ch| + if w.phase.Handling? || w.phase.Sending? then 1 else 0
  }

  ghost function Live(w: Worker): nat {
    if w.Done() then 0 else 1
  }

  /** Channels hold what they can hold.  While the poll goroutine sends, the commit channel contains no more than the
      workers have sent since the drain saw it empty. */
  ghost predicate Backlog(B: nat, s: State) {
    && |s.commitCh| <= CommitCap(B)
    && (forall w :: 0 <= w < |s.ws| ==> |s.ws[w].ch| <= B)
    && (s.pc.Dispatching? ==> |s.commitCh| + Sum(s.ws, Load) <= (B + 1) * Sum(s.ws, Live))
  }

  lemma MulStep(b: nat, x: nat, l: nat)
    ensures b * (x + l) == b * x + b * l
  {}

  lemma {:induction false} LoadBound(B: nat, ws: seq<Worker>)
    requires forall w :: 0 <= w < |ws| ==> |ws[w].ch| <= B && (ws[w].Done() ==> ws[w].ch == [])
    ensures Sum(ws, Load) <= (B + 1) * Sum(ws, Live)
  {
    if ws != [] {
      var n := |ws| - 1;
      LoadBound(B, ws[..n]);
      MulStep(B + 1, Sum(ws[..n], Live), Live(ws[n]));
      if ws[n].Done() {
        assert (B + 1) * Live(ws[n]) == 0;
      } else {
        assert (B + 1) * Live(ws[n]) == B + 1;
      }
    }
  }

  lemma DispatchShort(B: nat, s: State, m: Msg)
    requires MapOk(s.ws, s.workers, s.latest, s.open)
    requires forall w :: 0 <= w < |s.ws| ==> |s.ws[w].ch| <= B
    ensures forall w :: 0 <= w < |Dispatch(s, m).ws| ==>
              |Dispatch(s, m).ws[w].ch| <= B && (Dispatch(s, m).ws[w].Done() ==> Dispatch(s, m).ws[w].ch == [])
  {
    forall w | 0 <= w < |s.ws|
      ensures s.ws[w].Done() ==> s.ws[w].ch == []
    {
      assert Registered(s.ws[w], w, s.workers, s.latest);
    }
  }

  lemma BacklogDispatch(B: nat, s: State, m: Msg)
    requires MapOk(s.ws, s.workers, s.latest, s.open) && Backlog(B, s) && s.commitCh == []
    ensures Backlog(B, Dispatch(s, m))
  {
    DispatchShort(B, s, m);
    LoadBound(B, Dispatch(s, m).ws);
  }

  lemma BacklogHandle(B: nat, s: State, ev: Event)
    requires Backlog(B, s) && !ev.Message?
    ensures Backlog(B, Handle(s, ev))
  {
  }

  lemma BacklogStart(B: nat, s: State)
    requires MapOk(s.ws, s.workers, s.latest, s.open) && Backlog(B, s) && Enabled(B, s, DrainDefault)
    ensures Backlog(B, Apply(B, s, DrainDefault))
  {
    var s' := s.(commits := s.commits + s.pc.pending.Values);
    if s.pc.ev.Message? {
      BacklogDispatch(B, s', s.pc.ev.m);
    } else {
      BacklogHandle(B, s', s.pc.ev);
    }
  }

  lemma WorkerBalance(B: nat, s: State, a: Action)
    requires ClosingOk(s.pc, s.ws) && s.pc.Dispatching? && Enabled(B, s, a)
    requires a.Receive? || a.HandlerReturn? || a.SendCommit? || a.SeeClosed? || a.Exit?
    ensures |Apply(B, s, a).ws| == |s.ws| && Apply(B, s, a).ws == s.ws[a.w := Apply(B, s, a).ws[a.w]]
    ensures |Apply(B, s, a).commitCh| + Load(Apply(B, s, a).ws[a.w]) == |s.commitCh| + Load(s.ws[a.w])
    ensures Live(Apply(B, s, a).ws[a.w]) == Live(s.ws[a.w])
  {
  }

  /** Receiving, handling and sending move a message on without changing the balance. */
  lemma Balance(B: nat, s: State, a: Action)
    requires ClosingOk(s.pc, s.ws) && s.pc.Dispatching? && Enabled(B, s, a)
    requires a.Receive? || a.HandlerReturn? || a.SendCommit? || a.SeeClosed? || a.Exit?
    ensures |Apply(B, s, a).commitCh| + Sum(Apply(B, s, a).ws, Load) == |s.commitCh| + Sum(s.ws, Load)
    ensures Sum(Apply(B, s, a).ws, Live) == Sum(s.ws, Live)
  {
    var v := Apply(B, s, a).ws[a.w];
    WorkerBalance(B, s, a);
    SumUpdate(s.ws, Load, a.w, v);
    SumUpdate(s.ws, Live, a.w, v);
  }

  lemma BacklogWorker(B: nat, s: State, a: Action)
    requires ClosingOk(s.pc, s.ws) && Backlog(B, s) && Enabled(B, s, a)
    requires a.Receive? || a.HandlerReturn? || a.SendCommit? || a.SeeClosed? || a.Exit?
    ensures Backlog(B, Apply(B, s, a))
  {
    if s.pc.Dispatching? {
      Balance(B, s, a);
    }
  }

  lemma BacklogKept(B: nat, s: State, a: Action)
    requires Inv(s) && Backlog(B, s) && Enabled(B, s, a)
    ensures Backlog(B, Apply(B, s, a))
  {
    if a.DrainDefault? {
      BacklogStart(B, s);
    } else if a.Receive? || a.HandlerReturn? || a.SendCommit? || a.SeeClosed? || a.Exit? {
      BacklogWorker(B, s, a);
    }
  }

  lemma BacklogInit(B: nat)
    ensures Backlog(B, INIT)
  {
  }

  lemma BacklogStep(B: nat, run: seq<State>, i: nat)
    requires IsRun(B, run) && i + 1 < |run| && Backlog(B, run[i])
    ensures Backlog(B, run[i + 1])
  {
    var s, s' := run[i], run[i + 1];
    InvAlways(B, run, i);
    assert StepAt(B, run, i);
    var a :| Enabled(B, s, a) && Apply(B, s, a) == s';
    BacklogKept(B, s, a);
  }

  lemma {:induction false} BacklogAlways(B: nat, run: seq<State>, i: nat)
    requires IsRun(B, run) && i < |run|
    ensures Backlog(B, run[i])
  {
    if i == 0 {
      BacklogInit(B);
    } else {
      BacklogAlways(B, run, i - 1);
      BacklogStep(B, run, i - 1);
    }
  }

  // ----- Counting the live workers -----

  ghost function LiveIds(ws: seq<Worker>): set<nat> {
    set w: nat | w < |ws| && !ws[w].Done()
  }

  lemma {:induction false} LiveSum(ws: seq<Worker>)
    ensures Sum(ws, Live) == |LiveIds(ws)|
  {
    if ws != [] {
      var n := |ws| - 1;
      LiveSum(ws[..n]);
      assert LiveIds(ws) == LiveIds(ws[..n]) + if ws[n].Done() then {} else {n};
    }
  }

  lemma {:induction false} InjectiveSize(m: map<TP, nat>)
    requires forall p, q :: p in m && q in m && m[p] == m[q] ==> p == q
    ensures |m.Values| == |m|
  {
    if m != map[] {
      var p :| p in m;
      var rest := m - {p};
      InjectiveSize(rest);
      assert m.Values == rest.Values + {m[p]};
    }
  }

  /** Outside a shutdown or revocation the live workers are exactly the registered ones. */
  lemma LiveAreRegistered(s: State)
    requires Inv(s) && !s.pc.Awaiting?
    ensures LiveIds(s.ws) == s.workers.Values && Sum(s.ws, Live) == |s.workers|
  {
    LiveSum(s.ws);
    InjectiveSize(s.workers);
    forall w: nat | w < |s.ws|
      ensures w in LiveIds(s.ws) <==> w in s.workers.Values
    {
      assert Registered(s.ws[w], w, s.workers, s.latest);
    }
    assert LiveIds(s.ws) == s.workers.Values;
  }

  // ----- Below the bound nothing blocks -----

  lemma {:induction false} SumAtLeast(ws: seq<Worker>, f: Worker -> nat, w: nat)
    requires w < |ws|
    ensures f(ws[w]) <= Sum(ws, f)
  {
    if w < |ws| - 1 {
      SumAtLeast(ws[..|ws| - 1], f, w);
    }
  }

  lemma BacklogReachable(B: nat, s: State)
    requires Reachable(B, s)
    ensures Backlog(B, s)
  {
    var run :| IsRun(B, run) && run[|run| - 1] == s;
    BacklogAlways(B, run, |run| - 1);
  }

  lemma OthersFit(b: nat, n: nat, inChannel: nat, load: nat, cap: nat)
    requires inChannel + load <= b * n && load >= b && (n - 1) * b < cap
    ensures inChannel < cap
  {
    assert b * n == (n - 1) * b + b;
  }

  lemma LoadedRoom(B: nat, s: State)
    requires Backlog(B, s) && s.pc.Dispatching? && s.pc.w < |s.ws| && Load(s.ws[s.pc.w]) >= B + 1
    requires Sum(s.ws, Live) == |s.workers| && (|s.workers| - 1) * (B + 1) < CommitCap(B)
    ensures |s.commitCh| < CommitCap(B)
  {
    SumAtLeast(s.ws, Load, s.pc.w);
    OthersFit(B + 1, |s.workers|, |s.commitCh|, Sum(s.ws, Load), CommitCap(B));
  }

  lemma TargetExists(s: State)
    requires MapOk(s.ws, s.workers, s.latest, s.open) && HeldOk(s.pc, s.ws, s.workers, s.log, s.base, s.open)
    requires s.pc.Dispatching?
    ensures s.pc.w < |s.ws| && !s.ws[s.pc.w].closed && !s.ws[s.pc.w].Done()
  {
    assert Registered(s.ws[s.pc.w], s.pc.w, s.workers, s.latest);
  }

  /** While the poll goroutine is blocked on a full channel, the worker that has to empty it is not blocked on the
      commit channel, provided the other workers cannot fill that channel on their own. */
  lemma TargetNotBlocked(B: nat, s: State)
    requires Reachable(B, s) && s.pc.Dispatching? && (|s.workers| - 1) * (B + 1) < CommitCap(B)
    ensures s.pc.w < |s.ws|
    ensures |s.ws[s.pc.w].ch| == B && s.ws[s.pc.w].phase.Sending? ==> |s.commitCh| < CommitCap(B)
  {
    InvReachable(B, s);
    TargetExists(s);
    LiveAreRegistered(s);
    BacklogReachable(B, s);
    if |s.ws[s.pc.w].ch| == B && s.ws[s.pc.w].phase.Sending? {
      LoadedRoom(B, s);
    }
  }

  /** Nothing but a cancellation of the context can happen any more, and the consumer has not stopped. */
  ghost predicate Deadlocked(B: nat, s: State) {
    !s.pc.Stopped? && !CanMove(B, s)
  }

  /** Outside `dispatch` the poll goroutine itself, or somebody it waits for, can always move. */
  lemma OnlyDispatchBlocks(B: nat, s: State)
    requires B >= 1 && Reachable(B, s) && !s.pc.Dispatching? && !s.pc.Stopped?
    ensures CanMove(B, s)
  {
    match s.pc
    case Top => assert Enabled(B, s, CheckCtx);
    case Polling => assert Enabled(B, s, PollEvent(NoEvent));
    case Draining(_, _) => assert Enabled(B, s, if s.commitCh == [] then DrainDefault else RecvCommit);
    case Awaiting(_, _, _, _) => AwaitNeverStuck(B, s);
  }

  lemma NoDeadlock(B: nat, s: State)
    requires B >= 1 && Reachable(B, s) && (|s.workers| - 1) * (B + 1) < CommitCap(B)
    ensures !Deadlocked(B, s)
  {
    if s.pc.Dispatching? {
      InvReachable(B, s);
      TargetExists(s);
      TargetNotBlocked(B, s);
      var w := s.pc.w;
      var a := if |s.ws[w].ch| < B then SendMsg
               else match s.ws[w].phase
                 case Handling(_) => HandlerReturn(w)
                 case Sending(_) => SendCommit(w)
                 case _ => Receive(w);
      BacklogReachable(B, s);
      assert Enabled(B, s, a);
    } else if !s.pc.Stopped? {
      OnlyDispatchBlocks(B, s);
    }
  }
}
