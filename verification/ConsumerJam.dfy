/** The converse of the capacity bound: as soon as the other workers can fill the commit channel on their own, some
    run of the consumer deadlocks. */
module ConsumerJam {
  import opened ConsumerModel
  import opened ConsumerInvariant
  import opened ConsumerProgress
  import opened ConsumerDeadlock

  function Partition(i: nat): TP { TP("orders", i) }

  /** The poll goroutine is at the loop head of a run whose offsets are the delivery numbers. */
  ghost predicate Ready(B: nat, s: State) {
    && Reachable(B, s) && s.pc.Top? && !s.cancelled && s.commitCh == []
    && forall j :: 0 <= j < |s.log| ==> s.log[j].off == j
  }

  /** `k` workers, each in a handler call; all channels are full but the last one, which holds `q` messages. */
  ghost predicate Loaded(B: nat, s: State, k: nat, q: nat) {
    && Ready(B, s) && |s.ws| == k
    && forall i :: 0 <= i < k ==>
         && s.ws[i].tp == Partition(i) && !s.ws[i].closed && s.ws[i].phase.Handling?
         && |s.ws[i].ch| == if i == k - 1 then q else B
  }

  /** One turn of the poll loop brings a message of `tp` up to the channel send. */
  lemma Deliver(B: nat, s: State, tp: TP) returns (t: State)
    requires Ready(B, s)
    ensures Reachable(B, t) && t.pc.Dispatching? && !t.cancelled && t.commitCh == []
    ensures forall j :: 0 <= j < |t.log| ==> t.log[j].off == j
    ensures tp in s.workers ==> t.ws == s.ws && t.pc.w == s.workers[tp]
    ensures tp !in s.workers ==> t.ws == s.ws + [Worker(tp, [], false, Waiting)] && t.pc.w == |s.ws|
  {
    var m := Msg(|s.log|, tp, |s.log|);
    Extend(B, s, CheckCtx);
    var polling := Apply(B, s, CheckCtx);
    Extend(B, polling, PollEvent(Message(m)));
    var draining := Apply(B, polling, PollEvent(Message(m)));
    Extend(B, draining, DrainDefault);
    t := Apply(B, draining, DrainDefault);
  }

  /** In a loaded state partition `i` is registered exactly when its worker exists. */
  lemma LoadedWorkers(B: nat, s: State, k: nat, q: nat, i: nat)
    requires Loaded(B, s, k, q)
    ensures Partition(i) in s.workers <==> i < k
    ensures i < k ==> s.workers[Partition(i)] == i
  {
    InvReachable(B, s);
    if i < k {
      assert Registered(s.ws[i], i, s.workers, s.latest);
    }
  }

  lemma StartWorker(B: nat, s: State, k: nat) returns (t: State)
    requires B >= 1 && Loaded(B, s, k, B)
    ensures Loaded(B, t, k + 1, 0)
  {
    LoadedWorkers(B, s, k, B, k);
    t := Deliver(B, s, Partition(k));
    Extend(B, t, SendMsg);
    t := Apply(B, t, SendMsg);
    Extend(B, t, Receive(k));
    t := Apply(B, t, Receive(k));
  }

  lemma Enqueue(B: nat, s: State, k: nat, q: nat) returns (t: State)
    requires Loaded(B, s, k + 1, q) && q < B
    ensures Loaded(B, t, k + 1, q + 1)
  {
    LoadedWorkers(B, s, k + 1, q, k);
    t := Deliver(B, s, Partition(k));
    Extend(B, t, SendMsg);
    t := Apply(B, t, SendMsg);
  }

  lemma {:induction false} FillWorker(B: nat, s: State, k: nat, q: nat) returns (t: State)
    requires Loaded(B, s, k + 1, q) && q <= B
    ensures Loaded(B, t, k + 1, B)
    decreases B - q
  {
    if q == B {
      t := s;
    } else {
      t := Enqueue(B, s, k, q);
      t := FillWorker(B, t, k, q + 1);
    }
  }

  lemma {:induction false} FillWorkers(B: nat, k: nat) returns (t: State)
    requires B >= 1
    ensures Loaded(B, t, k, B)
  {
    if k == 0 {
      t := INIT;
      assert IsRun(B, [INIT]) && [INIT][|[INIT]| - 1] == INIT;
    } else {
      t := FillWorkers(B, k - 1);
      t := StartWorker(B, t, k - 1);
      t := FillWorker(B, t, k - 1, 0);
    }
  }

  /** The poll goroutine is blocked on the full channel of worker 0, whose handler is running; `total` messages are
      still queued, in a handler, or on their way through the commit channel. */
  ghost predicate Jam(B: nat, W: nat, total: nat, s: State) {
    && Reachable(B, s) && s.pc.Dispatching? && s.pc.w == 0 && |s.ws| == W >= 1
    && s.ws[0].phase.Handling? && |s.ws[0].ch| == B
    && (forall i :: 0 <= i < W ==> !s.ws[i].closed && !s.ws[i].Done())
    && |s.commitCh| + Sum(s.ws, Load) == total
  }

  lemma {:induction false} FullLoad(ws: seq<Worker>, c: nat)
    requires forall i :: 0 <= i < |ws| ==> Load(ws[i]) == c
    ensures Sum(ws, Load) == |ws| * c
  {
    if ws != [] {
      FullLoad(ws[..|ws| - 1], c);
      assert |ws| * c == (|ws| - 1) * c + c;
    }
  }

  lemma StartJam(B: nat, W: nat) returns (s: State)
    requires B >= 1 && W >= 1
    ensures Jam(B, W, W * (B + 1), s)
  {
    var full := FillWorkers(B, W);
    LoadedWorkers(B, full, W, B, 0);
    s := Deliver(B, full, Partition(0));
    FullLoad(s.ws, B + 1);
  }

  /** A step of a worker other than worker 0. */
  ghost predicate OtherWorkerStep(B: nat, s: State, a: Action) {
    Enabled(B, s, a) && (a.Receive? || a.HandlerReturn? || a.SendCommit?) && a.w >= 1
  }

  lemma JamKept(B: nat, W: nat, total: nat, s: State, a: Action)
    requires Jam(B, W, total, s) && ClosingOk(s.pc, s.ws) && OtherWorkerStep(B, s, a)
    ensures Jam(B, W, total, Apply(B, s, a))
  {
    Extend(B, s, a);
    Balance(B, s, a);
  }

  /** Let the other workers run until none of them can move. */
  lemma {:induction false} Exhaust(B: nat, W: nat, total: nat, s: State) returns (t: State)
    requires Jam(B, W, total, s)
    ensures Jam(B, W, total, t) && forall a :: !OtherWorkerStep(B, t, a)
    decreases Work(s)
  {
    if a :| OtherWorkerStep(B, s, a) {
      InvReachable(B, s);
      JamKept(B, W, total, s, a);
      WorkerWork(B, s, a);
      t := Exhaust(B, W, total, Apply(B, s, a));
    } else {
      t := s;
    }
  }

  lemma {:induction false} SumOfFirst(ws: seq<Worker>, f: Worker -> nat)
    requires ws != [] && forall i :: 1 <= i < |ws| ==> f(ws[i]) == 0
    ensures Sum(ws, f) == f(ws[0])
  {
    if |ws| > 1 {
      SumOfFirst(ws[..|ws| - 1], f);
    } else {
      assert ws[..0] == [];
    }
  }

  /** An exhausted worker waits for a message, or for room in a full commit channel. */
  lemma ExhaustedWorker(B: nat, s: State, i: nat)
    requires (forall a :: !OtherWorkerStep(B, s, a)) && 1 <= i < |s.ws| && !s.ws[i].Done()
    ensures (s.ws[i].phase.Waiting? && s.ws[i].ch == []) || (s.ws[i].phase.Sending? && |s.commitCh| >= CommitCap(B))
  {
    assert !OtherWorkerStep(B, s, Receive(i));
    assert !OtherWorkerStep(B, s, HandlerReturn(i));
    assert !OtherWorkerStep(B, s, SendCommit(i));
  }

  lemma ChannelFull(B: nat, W: nat, s: State)
    requires Jam(B, W, W * (B + 1), s) && forall a :: !OtherWorkerStep(B, s, a)
    requires (W - 1) * (B + 1) >= CommitCap(B)
    ensures |s.commitCh| == CommitCap(B)
  {
    BacklogReachable(B, s);
    assert W * (B + 1) == (W - 1) * (B + 1) + (B + 1);
    if |s.commitCh| < CommitCap(B) {
      forall i | 1 <= i < W
        ensures Load(s.ws[i]) == 0
      {
        ExhaustedWorker(B, s, i);
      }
      SumOfFirst(s.ws, Load);
    }
  }

  /** Worker 0 returns from its handler into a full commit channel: nobody can move. */
  lemma Jammed(B: nat, W: nat, total: nat, s: State)
    requires Jam(B, W, total, s) && (forall a :: !OtherWorkerStep(B, s, a)) && |s.commitCh| == CommitCap(B)
    requires s.waiter.NoWaiter?
    ensures Deadlocked(B, Apply(B, s, HandlerReturn(0)))
  {
    var t := Apply(B, s, HandlerReturn(0));
    forall a | Enabled(B, t, a)
      ensures a.Cancel?
    {
      if (a.Receive? || a.HandlerReturn? || a.SendCommit? || a.SeeClosed? || a.Exit?) && a.w >= 1 {
        ExhaustedWorker(B, s, a.w);
      }
    }
  }

  lemma {:induction false} AllLive(ws: seq<Worker>)
    requires forall i :: 0 <= i < |ws| ==> !ws[i].Done()
    ensures Sum(ws, Live) == |ws|
  {
    if ws != [] {
      AllLive(ws[..|ws| - 1]);
    }
  }

  /** A run that deadlocks with `W` registered partitions. */
  lemma DeadlockRun(B: nat, W: nat) returns (t: State)
    requires B >= 1 && (W - 1) * (B + 1) >= CommitCap(B)
    ensures Reachable(B, t) && Deadlocked(B, t) && |t.workers| == W
  {
    var s := StartJam(B, W);
    s := Exhaust(B, W, W * (B + 1), s);
    ChannelFull(B, W, s);
    InvReachable(B, s);
    LiveAreRegistered(s);
    AllLive(s.ws);
    Jammed(B, W, W * (B + 1), s);
    Extend(B, s, HandlerReturn(0));
    t := Apply(B, s, HandlerReturn(0));
  }

  /** The exact bound: with `W` registered partitions and channels of size `B`, some run deadlocks if and only if the
      other `W - 1` workers hold enough messages to fill the commit channel. */
  lemma DeadlockExactly(B: nat, W: nat)
    requires B >= 1
    ensures (exists s :: Reachable(B, s) && Deadlocked(B, s) && |s.workers| == W) <==> (W - 1) * (B + 1) >= 16 * B
  {
    if (W - 1) * (B + 1) >= CommitCap(B) {
      var t := DeadlockRun(B, W);
    } else {
      forall s | Reachable(B, s) && |s.workers| == W
        ensures !Deadlocked(B, s)
      {
        NoDeadlock(B, s);
      }
    }
  }

  /** The configured channel size is 256: sixteen partitions can never deadlock, seventeen can. */
  lemma ConfiguredLimit()
    ensures !exists s :: Reachable(256, s) && Deadlocked(256, s) && |s.workers| == 16
    ensures exists s :: Reachable(256, s) && Deadlocked(256, s) && |s.workers| == 17
  {
    DeadlockExactly(256, 16);
    DeadlockExactly(256, 17);
  }
}
