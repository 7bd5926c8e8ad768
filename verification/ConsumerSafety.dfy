/** What the consumer promises over every run: which offsets it commits, in which order handlers run, and what a
    finished revocation or shutdown leaves behind. */
module ConsumerSafety {
  import opened ConsumerModel
  import opened ConsumerInvariant

  /** The offsets that an action hands to CommitOffsets. */
  function CommittedBy(s: State, a: Action): set<Entry> {
    if a.DrainDefault? || a.AwaitReturn? then Pend(s.pc).Values else {}
  }

  /** Committing `c` skips nothing: a message at `c - 1` was handled, and so was every delivered message below `c`. */
  ghost predicate SafeOffset(s: State, tp: TP, c: int) {
    && (exists i :: 0 <= i < |s.log| && i in s.handled && s.log[i].tp == tp && s.log[i].off == c - 1)
    && (forall j :: 0 <= j < |s.log| && s.log[j].tp == tp && s.log[j].off < c ==> j in s.handled)
  }

  lemma EntrySafe(s: State, e: Entry)
    requires LogOk(s.log, s.handled) && AssignOk(s.log, s.base, s.open) && InOrder(s.log, s.handled)
    requires EntryOk(e, s.log, s.base, s.handled)
    ensures SafeOffset(s, e.tp, e.off)
  {
    assert s.log[e.id].off == e.off - 1;
  }

  /** Commit safety, over every interleaving of polling, handling, revocation and shutdown. */
  lemma CommitSafety(B: nat, s: State, a: Action, e: Entry)
    requires Reachable(B, s) && Enabled(B, s, a) && e in CommittedBy(s, a)
    ensures SafeOffset(s, e.tp, e.off)
  {
    InvReachable(B, s);
    EntrySafe(s, e);
  }

  lemma HandleCommitsNothing(s: State, ev: Event)
    ensures Handle(s, ev).commits == s.commits
  {
  }

  /** Offsets reach CommitOffsets in no other way. */
  lemma OnlyDrainsCommit(B: nat, s: State, a: Action)
    requires Enabled(B, s, a)
    ensures Apply(B, s, a).commits == s.commits + CommittedBy(s, a)
  {
    if a.DrainDefault? {
      HandleCommitsNothing(s.(commits := s.commits + s.pc.pending.Values), s.pc.ev);
    }
  }

  /** A handler runs in the newest worker of its message's partition. */
  lemma NewestHandles(s: State, w: nat)
    requires Structure(s) && w < |s.ws| && s.ws[w].phase.Handling?
    ensures s.ws[w].phase.m.tp == s.ws[w].tp && s.ws[w].tp in s.latest && s.latest[s.ws[w].tp] == w
  {
    WorkerFacts(s, w);
  }

  /** Per-partition ordering: a handler runs only after the handlers of all earlier deliveries of its partition
      returned, and no two handlers of one partition run at the same time. */
  lemma PartitionOrder(B: nat, s: State, w: nat)
    requires Reachable(B, s) && w < |s.ws| && s.ws[w].phase.Handling?
    ensures forall i :: 0 <= i < s.ws[w].phase.m.id && i < |s.log| && s.log[i].tp == s.ws[w].phase.m.tp ==>
              i in s.handled
    ensures forall v :: 0 <= v < |s.ws| && s.ws[v].phase.Handling? && s.ws[v].phase.m.tp == s.ws[w].phase.m.tp ==>
              v == w
  {
    InvReachable(B, s);
    NewestHandles(s, w);
    forall i | 0 <= i < s.ws[w].phase.m.id && i < |s.log| && s.log[i].tp == s.ws[w].phase.m.tp
      ensures i in s.handled
    {
      EarlierHandled(s, w, i);
    }
    forall v | 0 <= v < |s.ws| && s.ws[v].phase.Handling? && s.ws[v].phase.m.tp == s.ws[w].phase.m.tp
      ensures v == w
    {
      NewestHandles(s, v);
      NewestHandles(s, w);
    }
  }

  /** The poll goroutine never sends on a closed channel, and sends to a live worker of the message's partition. */
  lemma DispatchTargetOpen(B: nat, s: State)
    requires Reachable(B, s) && s.pc.Dispatching?
    ensures s.pc.w < |s.ws| && s.ws[s.pc.w].tp == s.pc.m.tp
    ensures !s.ws[s.pc.w].closed && !s.ws[s.pc.w].Done()
  {
    InvReachable(B, s);
    assert Registered(s.ws[s.pc.w], s.pc.w, s.workers, s.latest);
  }

  /** All deliveries of a partition were handled, and a commit covering the last of them was attempted. */
  ghost predicate Settled(s: State, tp: TP) {
    && (forall w :: 0 <= w < |s.ws| && s.ws[w].tp == tp ==> s.ws[w].Done() && s.ws[w].ch == [])
    && (forall k :: 0 <= k < |s.commitCh| ==> s.commitCh[k].tp != tp)
    && (forall j :: 0 <= j < |s.log| && s.log[j].tp == tp ==> j in s.handled && Committed(s.commits, s.log[j]))
  }

  /** When the poll goroutine is not handling or stopping anything, a partition without a registered worker and
      without an offset in flight is settled. */
  lemma UnregisteredSettled(s: State, tp: TP)
    requires Inv(s) && (s.pc.Top? || s.pc.Stopped?) && s.commitCh == [] && tp !in s.workers
    ensures Settled(s, tp)
  {
    forall w | 0 <= w < |s.ws| && s.ws[w].tp == tp
      ensures s.ws[w].Done() && s.ws[w].ch == []
    {
      assert Registered(s.ws[w], w, s.workers, s.latest);
    }
    forall j | 0 <= j < |s.log| && s.log[j].tp == tp
      ensures j in s.handled && Committed(s.commits, s.log[j])
    {
      assert tp in s.latest ==> s.ws[s.latest[tp]].Done();
      assert j in s.handled ==> Covered(s.log[j], s.commitCh, Pend(s.pc), s.commits, s.ws, s.latest);
    }
  }

  /** An awaited worker is not registered any more when `awaitWorkers` returns. */
  lemma TargetUnregistered(s: State, t: nat)
    requires WaiterOk(s.pc, s.waiter, s.ws) && EndingOk(s.pc, s.ws, s.workers, s.commitCh) && s.pc.Awaiting?
    requires t in s.pc.targets || (s.pc.ending && t < |s.ws|)
    ensures t < |s.ws| && s.ws[t].tp !in s.workers
  {
  }

  /** Returning from `awaitWorkers` leaves nothing behind: every stopped partition is settled. */
  lemma ReturnLeavesNothing(B: nat, s: State, t: nat)
    requires Reachable(B, s) && Enabled(B, s, AwaitReturn)
    requires t in s.pc.targets || (s.pc.ending && t < |s.ws|)
    ensures t < |s.ws| && Settled(Apply(B, s, AwaitReturn), s.ws[t].tp)
  {
    InvReachable(B, s);
    TargetUnregistered(s, t);
    InvKept(B, s, AwaitReturn);
    UnregisteredSettled(Apply(B, s, AwaitReturn), s.ws[t].tp);
  }

  /** A stopped consumer has handled every message it was ever given, and tried to commit past each of them. */
  lemma StoppedSettled(B: nat, s: State)
    requires Reachable(B, s) && s.pc.Stopped?
    ensures forall w :: 0 <= w < |s.ws| ==> s.ws[w].phase.Exited?
    ensures forall j :: 0 <= j < |s.log| ==> j in s.handled && Committed(s.commits, s.log[j])
  {
    InvReachable(B, s);
    forall j | 0 <= j < |s.log|
      ensures j in s.handled && Committed(s.commits, s.log[j])
    {
      UnregisteredSettled(s, s.log[j].tp);
    }
  }
}
