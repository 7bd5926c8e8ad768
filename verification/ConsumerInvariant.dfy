/** What every reachable state of the consumer satisfies. */
module ConsumerInvariant {
  import opened ConsumerModel

  /** Deliveries are numbered; handler calls that returned belong to deliveries. */
  ghost predicate LogOk(log: seq<Msg>, handled: set<nat>) {
    && (forall i :: 0 <= i < |log| ==> log[i].id == i)
    && (forall j :: j in handled ==> j < |log|)
  }

  /** The assignments: offsets of a partition strictly increase from `base` on. */
  ghost predicate AssignOk(log: seq<Msg>, base: map<TP, nat>, open: set<TP>) {
    && open <= base.Keys
    && (forall tp :: tp in base ==> base[tp] <= |log|)
    && (forall i :: 0 <= i < |log| ==> log[i].tp in base)
    && (forall i, j :: 0 <= i < j < |log| && log[i].tp == log[j].tp && base[log[i].tp] <= i ==> log[i].off < log[j].off)
  }

  /** A live worker is the newest of its partition, an open one is registered, a finished one is closed and empty. */
  ghost predicate Registered(worker: Worker, w: nat, workers: map<TP, nat>, latest: map<TP, nat>) {
    && worker.tp in latest
    && (!worker.Done() ==> latest[worker.tp] == w)
    && (!worker.closed ==> worker.tp in workers && workers[worker.tp] == w)
    && (worker.Done() ==> worker.closed && worker.ch == [])
  }

  ghost predicate MapOk(ws: seq<Worker>, workers: map<TP, nat>, latest: map<TP, nat>, open: set<TP>) {
    && (forall tp :: tp in latest ==> latest[tp] < |ws| && ws[latest[tp]].tp == tp)
    && (forall tp :: tp in workers ==>
          tp in latest && latest[tp] == workers[tp] && !ws[latest[tp]].closed && tp in open)
    && (forall w :: 0 <= w < |ws| ==> Registered(ws[w], w, workers, latest))
  }

  /** A message in flight is a delivery of the current assignment of its partition. */
  ghost predicate MsgOk(log: seq<Msg>, base: map<TP, nat>, tp: TP, m: Msg) {
    && m.tp == tp && m.id < |log| && log[m.id] == m
    && tp in base && base[tp] <= m.id
  }

  /** A worker holds messages of its own partition in delivery order. */
  ghost predicate WorkerOk(log: seq<Msg>, base: map<TP, nat>, handled: set<nat>, w: Worker) {
    && (forall a :: 0 <= a < |w.ch| ==> MsgOk(log, base, w.tp, w.ch[a]))
    && (forall a, b :: 0 <= a < b < |w.ch| ==> w.ch[a].id < w.ch[b].id)
    && (w.phase.Handling? ==>
          MsgOk(log, base, w.tp, w.phase.m) && forall a :: 0 <= a < |w.ch| ==> w.phase.m.id < w.ch[a].id)
    && (w.phase.Sending? ==> MsgOk(log, base, w.tp, w.phase.m) && w.phase.m.id in handled)
  }

  ghost predicate WorkersOk(ws: seq<Worker>, log: seq<Msg>, base: map<TP, nat>, handled: set<nat>) {
    forall w :: 0 <= w < |ws| ==> WorkerOk(log, base, handled, ws[w])
  }

  /** The message the poll goroutine holds between Poll and the channel send. */
  ghost predicate HeldBy(pc: Pc, m: Msg) {
    || (pc.Draining? && pc.ev == Message(m))
    || (pc.Dispatching? && pc.m == m)
  }

  /** Every message of the worker was delivered before `m`. */
  ghost predicate Before(w: Worker, m: Msg) {
    && (forall a :: 0 <= a < |w.ch| ==> w.ch[a].id < m.id)
    && (w.phase.Handling? ==> w.phase.m.id < m.id)
  }

  /** A held message is the newest delivery, and its partition is assigned. */
  ghost predicate HeldOk(pc: Pc, ws: seq<Worker>, workers: map<TP, nat>, log: seq<Msg>, base: map<TP, nat>,
                         open: set<TP>) {
    && (forall m :: HeldBy(pc, m) ==>
          && MsgOk(log, base, m.tp, m) && m.id == |log| - 1 && m.tp in open
          && forall w :: 0 <= w < |ws| && ws[w].tp == m.tp ==> Before(ws[w], m))
    && (pc.Dispatching? ==> pc.m.tp in workers && workers[pc.m.tp] == pc.w)
  }

  /** Somebody still holds the message. */
  ghost predicate Located(m: Msg, pc: Pc, ws: seq<Worker>, latest: map<TP, nat>) {
    HeldBy(pc, m) || (m.tp in latest && latest[m.tp] < |ws| && ws[latest[m.tp]].Holds(m))
  }

  /** Nothing is lost: a delivery whose handler has not returned is still held by somebody. */
  ghost predicate NothingLost(log: seq<Msg>, handled: set<nat>, pc: Pc, ws: seq<Worker>, latest: map<TP, nat>) {
    forall j :: 0 <= j < |log| && j !in handled ==> Located(log[j], pc, ws, latest)
  }

  /** Handlers of one partition return in delivery order. */
  ghost predicate InOrder(log: seq<Msg>, handled: set<nat>) {
    forall i, j :: 0 <= i < j < |log| && log[i].tp == log[j].tp && j in handled ==> i in handled
  }

  /** An offset on its way to a commit is one past a handled delivery of the current assignment. */
  ghost predicate EntryOk(e: Entry, log: seq<Msg>, base: map<TP, nat>, handled: set<nat>) {
    && e.id in handled && e.id < |log|
    && log[e.id].tp == e.tp && e.off == log[e.id].off + 1
    && e.tp in base && base[e.tp] <= e.id
  }

  ghost predicate EntriesOk(commitCh: seq<Entry>, pending: Pending, log: seq<Msg>, base: map<TP, nat>,
                            handled: set<nat>) {
    && (forall k :: 0 <= k < |commitCh| ==> EntryOk(commitCh[k], log, base, handled))
    && (forall tp :: tp in pending ==> pending[tp].tp == tp && EntryOk(pending[tp], log, base, handled))
  }

  /** Unless the poll goroutine is stopping workers, offsets in flight are of assigned partitions. */
  ghost predicate InFlightOpen(pc: Pc, commitCh: seq<Entry>, open: set<TP>) {
    !pc.Awaiting? ==>
      && (forall k :: 0 <= k < |commitCh| ==> commitCh[k].tp in open)
      && (forall tp :: tp in Pend(pc) ==> tp in open)
  }

  ghost predicate AllExited(ws: seq<Worker>) {
    forall w :: 0 <= w < |ws| ==> ws[w].phase.Exited?
  }

  /** Only awaited workers have a closed channel they have not finished. */
  ghost predicate ClosingOk(pc: Pc, ws: seq<Worker>) {
    forall w :: 0 <= w < |ws| && ws[w].closed && !ws[w].Done() ==> pc.Awaiting? && (pc.ending || w in pc.targets)
  }

  /** What a closed `done` channel means, and who is still waited for before that. */
  ghost predicate WaiterOk(pc: Pc, waiter: Waiter, ws: seq<Worker>) {
    && (waiter.NoWaiter? <==> !pc.Awaiting?)
    && (pc.Awaiting? ==>
          && (forall t :: t in pc.targets ==> t < |ws| && ws[t].closed)
          && (if pc.ending then !waiter.OnWorkers? else !waiter.OnGroup?)
          && (waiter.OnWorkers? ==>
                && (forall r :: r in waiter.rest ==> r in pc.targets)
                && forall t :: t in pc.targets ==> t in waiter.rest || ws[t].Done())
          && (waiter.DoneClosed? ==>
                if pc.ending then AllExited(ws) else forall t :: t in pc.targets ==> ws[t].Done())
          && (pc.final ==> waiter.DoneClosed?))
  }

  ghost predicate EndingOk(pc: Pc, ws: seq<Worker>, workers: map<TP, nat>, commitCh: seq<Entry>) {
    && (pc.Awaiting? && pc.ending ==> workers == map[])
    && (pc.Awaiting? ==> forall t :: t in pc.targets && t < |ws| ==> ws[t].tp !in workers)
    && (pc.Stopped? ==> AllExited(ws) && commitCh == [] && workers == map[])
  }

  /** Committing `e` commits `m`: same partition, at least as recent a delivery, a larger offset. */
  ghost predicate Covers(e: Entry, m: Msg) {
    e.tp == m.tp && e.id >= m.id && e.off > m.off
  }

  ghost predicate CoveredIn(commitCh: seq<Entry>, m: Msg) {
    exists k :: 0 <= k < |commitCh| && Covers(commitCh[k], m)
  }

  ghost predicate Committed(commits: set<Entry>, m: Msg) {
    exists e :: e in commits && Covers(e, m)
  }

  ghost predicate SendingNow(m: Msg, ws: seq<Worker>, latest: map<TP, nat>) {
    m.tp in latest && latest[m.tp] < |ws| && ws[latest[m.tp]].phase == Sending(m)
  }

  ghost predicate Covered(m: Msg, commitCh: seq<Entry>, pending: Pending, commits: set<Entry>, ws: seq<Worker>,
                          latest: map<TP, nat>) {
    || CoveredIn(commitCh, m)
    || (m.tp in pending && Covers(pending[m.tp], m))
    || Committed(commits, m)
    || SendingNow(m, ws, latest)
  }

  /** No handled delivery is forgotten: its offset is about to be sent, on its way, or handed to CommitOffsets. */
  ghost predicate Coverage(log: seq<Msg>, handled: set<nat>, commitCh: seq<Entry>, pending: Pending,
                           commits: set<Entry>, ws: seq<Worker>, latest: map<TP, nat>) {
    forall j :: 0 <= j < |log| && j in handled ==> Covered(log[j], commitCh, pending, commits, ws, latest)
  }

  /** The parts of the invariant: who holds which message, what was handled, who is stopping, which offsets are in
      flight, and that no handled offset is forgotten. */
  ghost predicate Structure(s: State) {
    && MapOk(s.ws, s.workers, s.latest, s.open)
    && WorkersOk(s.ws, s.log, s.base, s.handled)
    && HeldOk(s.pc, s.ws, s.workers, s.log, s.base, s.open)
  }

  ghost predicate Delivery(s: State) {
    && LogOk(s.log, s.handled)
    && AssignOk(s.log, s.base, s.open)
    && NothingLost(s.log, s.handled, s.pc, s.ws, s.latest)
    && InOrder(s.log, s.handled)
  }

  ghost predicate Stopping(s: State) {
    && ClosingOk(s.pc, s.ws)
    && WaiterOk(s.pc, s.waiter, s.ws)
    && EndingOk(s.pc, s.ws, s.workers, s.commitCh)
  }

  ghost predicate Entries(s: State) {
    && EntriesOk(s.commitCh, Pend(s.pc), s.log, s.base, s.handled)
    && InFlightOpen(s.pc, s.commitCh, s.open)
  }

  ghost predicate CoverageOk(s: State) {
    Coverage(s.log, s.handled, s.commitCh, Pend(s.pc), s.commits, s.ws, s.latest)
  }

  ghost predicate Inv(s: State) {
    Structure(s) && Delivery(s) && Stopping(s) && Entries(s) && CoverageOk(s)
  }

  // ----- Stopping -----

  lemma TargetsAre(workers: map<TP, nat>, parts: seq<TP>)
    ensures forall t :: t in Targets(workers, parts) ==> exists tp :: tp in parts && tp in workers && workers[tp] == t
    ensures forall tp :: tp in parts && tp in workers ==> workers[tp] in Targets(workers, parts)
  {
    if parts != [] {
      var tp := parts[0];
      var fewer := if tp in workers then workers - {tp} else workers;
      TargetsAre(fewer, parts[1..]);
      forall q | q in parts && q in workers
        ensures workers[q] in Targets(workers, parts)
      {
        if q != tp {
          assert q in parts[1..] && q in fewer;
        }
      }
    }
  }

  /** A worker that moves on without finishing, or that finishes, keeps what is known about stopping. */
  lemma ReplaceStopping(s: State, w: nat, v: Worker, commitCh: seq<Entry>)
    requires Stopping(s) && w < |s.ws| && !s.ws[w].phase.Exited?
    requires v.tp == s.ws[w].tp && v.closed == s.ws[w].closed && (s.ws[w].Done() ==> v.Done())
    ensures ClosingOk(s.pc, s.ws[w := v]) && WaiterOk(s.pc, s.waiter, s.ws[w := v])
    ensures EndingOk(s.pc, s.ws[w := v], s.workers, commitCh)
  {
  }

  lemma WorkerStopping(B: nat, s: State, a: Action)
    requires Stopping(s) && Enabled(B, s, a)
    requires a.Receive? || a.HandlerReturn? || a.SendCommit? || a.SeeClosed? || a.Exit?
    ensures Stopping(Apply(B, s, a))
  {
    ReplaceStopping(s, a.w, Apply(B, s, a).ws[a.w], Apply(B, s, a).commitCh);
  }

  lemma PollStopping(B: nat, s: State, a: Action)
    requires Stopping(s) && Enabled(B, s, a)
    requires a.Cancel? || a.PollEvent? || a.RecvCommit? || a.SendMsg? || a.WaiterStep? || a.AwaitDone? || a.AwaitReturn?
    ensures Stopping(Apply(B, s, a))
  {
  }

  lemma ShutdownStopping(s: State)
    requires Stopping(s) && (s.pc.Top? || s.pc.Draining?)
    requires forall tp :: tp in s.workers ==> s.workers[tp] < |s.ws|
    ensures Stopping(Shutdown(s))
  {
  }

  /** Exactly the workers that are waited for get closed. */
  lemma TargetsClosed(s: State, parts: seq<TP>)
    requires MapOk(s.ws, s.workers, s.latest, s.open) && ClosingOk(s.pc, s.ws) && !s.pc.Awaiting?
    ensures var ws := CloseAll(s.ws, s.workers, set p | p in parts); var targets := Targets(s.workers, parts);
            && (forall t :: t in targets ==> t < |ws| && ws[t].closed && ws[t].tp in parts)
            && (forall w :: 0 <= w < |ws| && ws[w].closed && !ws[w].Done() ==> w in targets)
  {
    TargetsAre(s.workers, parts);
  }

  lemma StopWorkersStopping(s: State, parts: seq<TP>)
    requires Stopping(s) && s.pc.Draining? && MapOk(s.ws, s.workers, s.latest, s.open)
    ensures Stopping(StopWorkers(s, parts))
  {
    TargetsAre(s.workers, parts);
    TargetsClosed(s, parts);
  }

  // ----- Who holds which message -----

  /** `v` may take the place of worker `u`: same partition, same registration. */
  ghost predicate Replaces(v: Worker, u: Worker) {
    v.tp == u.tp && v.closed == u.closed && (u.Done() ==> v.Done())
  }

  lemma ReplaceMap(s: State, w: nat, v: Worker)
    requires MapOk(s.ws, s.workers, s.latest, s.open) && w < |s.ws| && Replaces(v, s.ws[w])
    requires Registered(v, w, s.workers, s.latest)
    ensures MapOk(s.ws[w := v], s.workers, s.latest, s.open)
  {
  }

  lemma ReplaceWorkers(s: State, w: nat, v: Worker, handled: set<nat>)
    requires WorkersOk(s.ws, s.log, s.base, s.handled) && w < |s.ws| && s.handled <= handled
    requires WorkerOk(s.log, s.base, handled, v)
    ensures WorkersOk(s.ws[w := v], s.log, s.base, handled)
  {
    var ws := s.ws[w := v];
    forall i | 0 <= i < |ws|
      ensures WorkerOk(s.log, s.base, handled, ws[i])
    {
      assert i != w ==> WorkerOk(s.log, s.base, s.handled, s.ws[i]);
    }
  }

  /** The successor keeps the delivery order. */
  lemma ReplaceHeld(s: State, w: nat, v: Worker)
    requires HeldOk(s.pc, s.ws, s.workers, s.log, s.base, s.open) && w < |s.ws| && Replaces(v, s.ws[w])
    requires forall m :: Before(s.ws[w], m) ==> Before(v, m)
    ensures HeldOk(s.pc, s.ws[w := v], s.workers, s.log, s.base, s.open)
  {
  }

  /** The successor loses no unhandled message. */
  lemma ReplaceDelivery(s: State, w: nat, v: Worker, handled: set<nat>)
    requires LogOk(s.log, s.handled) && NothingLost(s.log, s.handled, s.pc, s.ws, s.latest)
    requires w < |s.ws| && s.handled <= handled && Replaces(v, s.ws[w])
    requires forall m :: s.ws[w].Holds(m) && m.id !in handled ==> v.Holds(m)
    ensures NothingLost(s.log, handled, s.pc, s.ws[w := v], s.latest)
  {
    forall j | 0 <= j < |s.log| && j !in handled
      ensures Located(s.log[j], s.pc, s.ws[w := v], s.latest)
    {
      assert Located(s.log[j], s.pc, s.ws, s.latest);
    }
  }

  lemma Replace(s: State, w: nat, v: Worker, handled: set<nat>)
    requires Structure(s) && Delivery(s) && w < |s.ws| && s.handled <= handled && Replaces(v, s.ws[w])
    requires Registered(v, w, s.workers, s.latest) && WorkerOk(s.log, s.base, handled, v)
    requires forall m :: Before(s.ws[w], m) ==> Before(v, m)
    requires forall m :: s.ws[w].Holds(m) && m.id !in handled ==> v.Holds(m)
    ensures Structure(s.(ws := s.ws[w := v], handled := handled))
    ensures NothingLost(s.log, handled, s.pc, s.ws[w := v], s.latest)
  {
    ReplaceMap(s, w, v);
    ReplaceWorkers(s, w, v, handled);
    ReplaceHeld(s, w, v);
    ReplaceDelivery(s, w, v, handled);
  }

  /** What the invariant says about one worker. */
  lemma WorkerFacts(s: State, w: nat)
    requires Structure(s) && w < |s.ws|
    ensures Registered(s.ws[w], w, s.workers, s.latest) && WorkerOk(s.log, s.base, s.handled, s.ws[w])
  {
  }

  lemma ReceiveKept(B: nat, s: State, w: nat)
    requires Structure(s) && Delivery(s) && Enabled(B, s, Receive(w))
    ensures Structure(Apply(B, s, Receive(w))) && Delivery(Apply(B, s, Receive(w)))
  {
    var u := s.ws[w];
    WorkerFacts(s, w);
    assert u.ch == [u.ch[0]] + u.ch[1..];
    Replace(s, w, u.(phase := Handling(u.ch[0]), ch := u.ch[1..]), s.handled);
  }

  /** All earlier deliveries of the partition have been handled when a worker handles a message. */
  lemma EarlierHandled(s: State, w: nat, i: nat)
    requires Structure(s) && Delivery(s) && w < |s.ws| && s.ws[w].phase.Handling?
    requires i < s.ws[w].phase.m.id && s.log[i].tp == s.ws[w].tp
    ensures i in s.handled
  {
    WorkerFacts(s, w);
  }

  lemma HandlerReturnInOrder(s: State, w: nat)
    requires Structure(s) && Delivery(s) && w < |s.ws| && s.ws[w].phase.Handling?
    ensures InOrder(s.log, s.handled + {s.ws[w].phase.m.id})
  {
    WorkerFacts(s, w);
    forall i | 0 <= i < s.ws[w].phase.m.id && s.log[i].tp == s.ws[w].tp
      ensures i in s.handled
    {
      EarlierHandled(s, w, i);
    }
  }

  lemma HandlerReturnStructure(s: State, w: nat)
    requires Structure(s) && Delivery(s) && w < |s.ws| && s.ws[w].phase.Handling?
    ensures var m := s.ws[w].phase.m;
            var ws, handled := s.ws[w := s.ws[w].(phase := Sending(m))], s.handled + {m.id};
            && m.id < |s.log| && Structure(s.(ws := ws, handled := handled))
            && NothingLost(s.log, handled, s.pc, ws, s.latest)
  {
    var u := s.ws[w];
    WorkerFacts(s, w);
    Replace(s, w, u.(phase := Sending(u.phase.m)), s.handled + {u.phase.m.id});
  }

  lemma HandlerReturnKept(B: nat, s: State, w: nat)
    requires Structure(s) && Delivery(s) && Enabled(B, s, HandlerReturn(w))
    ensures Structure(Apply(B, s, HandlerReturn(w))) && Delivery(Apply(B, s, HandlerReturn(w)))
  {
    HandlerReturnStructure(s, w);
    HandlerReturnInOrder(s, w);
  }

  lemma SendCommitKept(B: nat, s: State, w: nat)
    requires Structure(s) && Delivery(s) && Enabled(B, s, SendCommit(w))
    ensures Structure(Apply(B, s, SendCommit(w))) && Delivery(Apply(B, s, SendCommit(w)))
  {
    WorkerFacts(s, w);
    Replace(s, w, s.ws[w].(phase := Waiting), s.handled);
  }

  lemma FinishKept(B: nat, s: State, a: Action, w: nat)
    requires Structure(s) && Delivery(s) && Enabled(B, s, a) && (a == SeeClosed(w) || a == Exit(w))
    ensures Structure(Apply(B, s, a)) && Delivery(Apply(B, s, a))
  {
    WorkerFacts(s, w);
    Replace(s, w, s.ws[w].(phase := if a.SeeClosed? then Finished else Exited), s.handled);
  }

  /** A partition that is not assigned has no live worker while messages are polled. */
  lemma UnassignedDone(s: State, w: nat)
    requires MapOk(s.ws, s.workers, s.latest, s.open) && ClosingOk(s.pc, s.ws) && !s.pc.Awaiting?
    requires w < |s.ws| && s.ws[w].tp !in s.open
    ensures s.ws[w].Done() && s.ws[w].ch == []
  {
    assert Registered(s.ws[w], w, s.workers, s.latest);
  }

  lemma PollWorkers(s: State, m: Msg)
    requires MapOk(s.ws, s.workers, s.latest, s.open) && ClosingOk(s.pc, s.ws) && s.pc.Polling?
    requires WorkersOk(s.ws, s.log, s.base, s.handled) && m.id == |s.log|
    ensures WorkersOk(s.ws, Deliver(s, Message(m)).log, Deliver(s, Message(m)).base, s.handled)
  {
    var t := Deliver(s, Message(m));
    forall w | 0 <= w < |s.ws|
      ensures WorkerOk(t.log, t.base, s.handled, s.ws[w])
    {
      assert WorkerOk(s.log, s.base, s.handled, s.ws[w]);
      if s.ws[w].tp !in s.open {
        UnassignedDone(s, w);
      }
    }
  }

  lemma PollHeld(s: State, m: Msg)
    requires LogOk(s.log, s.handled) && AssignOk(s.log, s.base, s.open)
    requires WorkersOk(s.ws, s.log, s.base, s.handled) && Deliverable(s, m)
    ensures var t := Deliver(s, Message(m)); HeldOk(t.pc, s.ws, s.workers, s.log + [m], t.base, s.open + {m.tp})
  {
    forall w | 0 <= w < |s.ws|
      ensures Before(s.ws[w], m)
    {
      assert WorkerOk(s.log, s.base, s.handled, s.ws[w]);
    }
  }

  lemma PollDelivery(s: State, m: Msg)
    requires Delivery(s) && Deliverable(s, m) && s.pc.Polling?
    ensures Delivery(Deliver(s, Message(m)))
  {
    var t := Deliver(s, Message(m));
    forall j | 0 <= j < |t.log| && j !in t.handled
      ensures Located(t.log[j], t.pc, t.ws, t.latest)
    {
      assert j < |s.log| ==> Located(s.log[j], s.pc, s.ws, s.latest);
    }
  }

  lemma PollEventKept(B: nat, s: State, ev: Event)
    requires Structure(s) && Delivery(s) && ClosingOk(s.pc, s.ws) && Enabled(B, s, PollEvent(ev))
    ensures Structure(Apply(B, s, PollEvent(ev))) && Delivery(Apply(B, s, PollEvent(ev)))
  {
    if ev.Message? {
      PollWorkers(s, ev.m);
      PollHeld(s, ev.m);
      PollDelivery(s, ev.m);
    }
  }

  lemma SendMsgDelivery(s: State, w: nat, m: Msg)
    requires NothingLost(s.log, s.handled, s.pc, s.ws, s.latest) && MapOk(s.ws, s.workers, s.latest, s.open)
    requires s.pc == Dispatching(w, m) && m.tp in s.workers && s.workers[m.tp] == w
    ensures NothingLost(s.log, s.handled, Top, s.ws[w := s.ws[w].(ch := s.ws[w].ch + [m])], s.latest)
  {
    forall j | 0 <= j < |s.log| && j !in s.handled
      ensures Located(s.log[j], Top, s.ws[w := s.ws[w].(ch := s.ws[w].ch + [m])], s.latest)
    {
      assert Located(s.log[j], s.pc, s.ws, s.latest);
    }
  }

  /** The worker that gets a held message keeps its messages in order. */
  lemma SendMsgWorker(s: State, w: nat, m: Msg)
    requires Structure(s) && s.pc == Dispatching(w, m)
    ensures w < |s.ws| && WorkerOk(s.log, s.base, s.handled, s.ws[w].(ch := s.ws[w].ch + [m]))
    ensures Registered(s.ws[w].(ch := s.ws[w].ch + [m]), w, s.workers, s.latest)
  {
    assert HeldBy(s.pc, m);
    assert Before(s.ws[w], m);
    WorkerFacts(s, w);
  }

  lemma SendMsgStructure(s: State, w: nat, m: Msg)
    requires Structure(s) && s.pc == Dispatching(w, m) && w < |s.ws|
    ensures var ws := s.ws[w := s.ws[w].(ch := s.ws[w].ch + [m])];
            && MapOk(ws, s.workers, s.latest, s.open) && WorkersOk(ws, s.log, s.base, s.handled)
            && HeldOk(Top, ws, s.workers, s.log, s.base, s.open)
  {
    var v := s.ws[w].(ch := s.ws[w].ch + [m]);
    SendMsgWorker(s, w, m);
    ReplaceMap(s, w, v);
    ReplaceWorkers(s, w, v, s.handled);
  }

  lemma SendMsgKept(B: nat, s: State)
    requires Structure(s) && Delivery(s) && Enabled(B, s, SendMsg)
    ensures Structure(Apply(B, s, SendMsg)) && Delivery(Apply(B, s, SendMsg))
  {
    SendMsgStructure(s, s.pc.w, s.pc.m);
    SendMsgDelivery(s, s.pc.w, s.pc.m);
  }

  /** Closing the channels of `keys` and unregistering them. */
  lemma CloseAllMap(s: State, keys: set<TP>, open: set<TP>)
    requires MapOk(s.ws, s.workers, s.latest, s.open) && s.open - keys <= open
    ensures MapOk(CloseAll(s.ws, s.workers, keys), s.workers - keys, s.latest, open)
  {
    var ws := CloseAll(s.ws, s.workers, keys);
    forall w | 0 <= w < |ws|
      ensures Registered(ws[w], w, s.workers - keys, s.latest)
    {
      assert Registered(s.ws[w], w, s.workers, s.latest);
    }
  }

  lemma CloseAllWorkers(s: State, keys: set<TP>)
    requires WorkersOk(s.ws, s.log, s.base, s.handled)
    ensures WorkersOk(CloseAll(s.ws, s.workers, keys), s.log, s.base, s.handled)
  {
    forall w | 0 <= w < |s.ws|
      ensures WorkerOk(s.log, s.base, s.handled, CloseAll(s.ws, s.workers, keys)[w])
    {
      assert WorkerOk(s.log, s.base, s.handled, s.ws[w]);
    }
  }

  lemma CloseAllNothingLost(s: State, keys: set<TP>, pc: Pc)
    requires NothingLost(s.log, s.handled, s.pc, s.ws, s.latest)
    requires forall m :: !HeldBy(s.pc, m)
    ensures NothingLost(s.log, s.handled, pc, CloseAll(s.ws, s.workers, keys), s.latest)
  {
    forall j | 0 <= j < |s.log| && j !in s.handled
      ensures Located(s.log[j], pc, CloseAll(s.ws, s.workers, keys), s.latest)
    {
      assert Located(s.log[j], s.pc, s.ws, s.latest);
    }
  }

  lemma ShutdownKept(s: State)
    requires Structure(s) && Delivery(s) && (s.pc.Top? || (s.pc.Draining? && !s.pc.ev.Message?))
    ensures Structure(Shutdown(s)) && Delivery(Shutdown(s))
  {
    var keys := s.workers.Keys;
    assert s.workers - keys == map[];
    CloseAllMap(s, keys, s.open);
    CloseAllWorkers(s, keys);
    CloseAllNothingLost(s, keys, Shutdown(s).pc);
  }

  lemma StopWorkersStructure(s: State, keys: set<TP>, pc: Pc)
    requires Structure(s) && !pc.Draining? && !pc.Dispatching?
    ensures Structure(
              s.(ws := CloseAll(s.ws, s.workers, keys), workers := s.workers - keys, open := s.open - keys, pc := pc))
  {
    CloseAllMap(s, keys, s.open - keys);
    CloseAllWorkers(s, keys);
  }

  lemma StopWorkersDelivery(s: State, keys: set<TP>, pc: Pc)
    requires Delivery(s) && (forall m :: !HeldBy(s.pc, m)) && !pc.Draining? && !pc.Dispatching?
    ensures Delivery(
              s.(ws := CloseAll(s.ws, s.workers, keys), workers := s.workers - keys, open := s.open - keys, pc := pc))
  {
    CloseAllNothingLost(s, keys, pc);
  }

  lemma StopWorkersKept(s: State, parts: seq<TP>)
    requires Structure(s) && Delivery(s) && s.pc.Draining? && s.pc.ev == Revoked(parts)
    ensures Structure(StopWorkers(s, parts)) && Delivery(StopWorkers(s, parts))
  {
    var keys := set p | p in parts;
    StopWorkersStructure(s, keys, StopWorkers(s, parts).pc);
    StopWorkersDelivery(s, keys, StopWorkers(s, parts).pc);
  }

  lemma DispatchMap(s: State, m: Msg)
    requires MapOk(s.ws, s.workers, s.latest, s.open) && ClosingOk(s.pc, s.ws) && s.pc.Draining? && m.tp in s.open
    requires m.tp !in s.workers
    ensures MapOk(Dispatch(s, m).ws, Dispatch(s, m).workers, Dispatch(s, m).latest, s.open)
  {
    var t := Dispatch(s, m);
    forall w | 0 <= w < |s.ws|
      ensures Registered(t.ws[w], w, t.workers, t.latest)
    {
      assert Registered(s.ws[w], w, s.workers, s.latest);
    }
  }

  /** Outside a shutdown or revocation, the last worker of an unregistered partition holds nothing. */
  lemma OldWorkerEmpty(s: State, tp: TP)
    requires MapOk(s.ws, s.workers, s.latest, s.open) && ClosingOk(s.pc, s.ws) && s.pc.Draining? && tp !in s.workers
    ensures tp in s.latest ==> s.ws[s.latest[tp]].Done() && forall m :: !s.ws[s.latest[tp]].Holds(m)
  {
    if tp in s.latest {
      assert Registered(s.ws[s.latest[tp]], s.latest[tp], s.workers, s.latest);
    }
  }

  lemma DispatchDelivery(s: State, m: Msg)
    requires NothingLost(s.log, s.handled, s.pc, s.ws, s.latest) && s.pc.Draining? && s.pc.ev == Message(m)
    requires MapOk(s.ws, s.workers, s.latest, s.open) && ClosingOk(s.pc, s.ws)
    ensures NothingLost(s.log, s.handled, Dispatch(s, m).pc, Dispatch(s, m).ws, Dispatch(s, m).latest)
  {
    var t := Dispatch(s, m);
    if m.tp !in s.workers {
      OldWorkerEmpty(s, m.tp);
    }
    forall j | 0 <= j < |s.log| && j !in s.handled
      ensures Located(s.log[j], t.pc, t.ws, t.latest)
    {
      assert Located(s.log[j], s.pc, s.ws, s.latest);
    }
  }

  lemma DispatchKept(s: State, m: Msg)
    requires Structure(s) && Delivery(s) && ClosingOk(s.pc, s.ws) && s.pc.Draining? && s.pc.ev == Message(m)
    ensures Structure(Dispatch(s, m)) && Delivery(Dispatch(s, m))
  {
    assert HeldBy(s.pc, m);
    if m.tp !in s.workers {
      DispatchMap(s, m);
    }
    DispatchDelivery(s, m);
    assert WorkersOk(Dispatch(s, m).ws, s.log, s.base, s.handled);
  }

  // ----- Offsets in flight -----

  lemma SendCommitEntries(B: nat, s: State, w: nat)
    requires Structure(s) && ClosingOk(s.pc, s.ws) && Entries(s) && Enabled(B, s, SendCommit(w))
    ensures Entries(Apply(B, s, SendCommit(w)))
  {
    WorkerFacts(s, w);
  }

  lemma PollEventEntries(B: nat, s: State, ev: Event)
    requires AssignOk(s.log, s.base, s.open) && Entries(s) && Enabled(B, s, PollEvent(ev))
    ensures Entries(Apply(B, s, PollEvent(ev)))
  {
  }

  lemma RecvCommitEntries(B: nat, s: State)
    requires Entries(s) && Enabled(B, s, RecvCommit)
    ensures Entries(Apply(B, s, RecvCommit))
  {
  }

  lemma HandlerReturnEntries(B: nat, s: State, w: nat)
    requires Entries(s) && Enabled(B, s, HandlerReturn(w))
    ensures Entries(Apply(B, s, HandlerReturn(w)))
  {
  }

  // ----- No offset is forgotten -----

  lemma ReceiveCoverage(B: nat, s: State, a: Action)
    requires CoverageOk(s) && Enabled(B, s, a) && (a.Receive? || a.SeeClosed? || a.Exit?)
    ensures CoverageOk(Apply(B, s, a))
  {
    var t := Apply(B, s, a);
    forall j | 0 <= j < |s.log| && j in s.handled
      ensures Covered(s.log[j], s.commitCh, Pend(s.pc), s.commits, t.ws, s.latest)
    {
      assert Covered(s.log[j], s.commitCh, Pend(s.pc), s.commits, s.ws, s.latest);
    }
  }

  lemma HandlerReturnCoverage(B: nat, s: State, w: nat)
    requires Structure(s) && CoverageOk(s) && Enabled(B, s, HandlerReturn(w))
    ensures CoverageOk(Apply(B, s, HandlerReturn(w)))
  {
    WorkerFacts(s, w);
    var t := Apply(B, s, HandlerReturn(w));
    forall j | 0 <= j < |s.log| && j in t.handled
      ensures Covered(s.log[j], s.commitCh, Pend(s.pc), s.commits, t.ws, s.latest)
    {
      if j in s.handled {
        assert Covered(s.log[j], s.commitCh, Pend(s.pc), s.commits, s.ws, s.latest);
      } else {
        assert SendingNow(s.log[j], t.ws, s.latest);
      }
    }
  }

  lemma SendCommitCoverage(s: State, w: nat, e: Entry)
    requires CoverageOk(s) && w < |s.ws| && s.ws[w].phase.Sending? && Covers(e, s.ws[w].phase.m)
    ensures Coverage(s.log, s.handled, s.commitCh + [e], Pend(s.pc), s.commits, SetPhase(s, w, Waiting).ws, s.latest)
  {
    var commitCh := s.commitCh + [e];
    var ws := SetPhase(s, w, Waiting).ws;
    forall j | 0 <= j < |s.log| && j in s.handled
      ensures Covered(s.log[j], commitCh, Pend(s.pc), s.commits, ws, s.latest)
    {
      var m := s.log[j];
      assert Covered(m, s.commitCh, Pend(s.pc), s.commits, s.ws, s.latest);
      if CoveredIn(s.commitCh, m) {
        var k :| 0 <= k < |s.commitCh| && Covers(s.commitCh[k], m);
        assert Covers(commitCh[k], m);
      } else if SendingNow(m, s.ws, s.latest) && s.latest[m.tp] == w {
        assert Covers(commitCh[|s.commitCh|], m);
      }
    }
  }

  lemma SendCommitCovered(B: nat, s: State, w: nat)
    requires CoverageOk(s) && Enabled(B, s, SendCommit(w))
    ensures CoverageOk(Apply(B, s, SendCommit(w)))
  {
    var m := s.ws[w].phase.m;
    SendCommitCoverage(s, w, Entry(m.id, m.tp, m.off + 1));
  }

  lemma PollEventCoverage(B: nat, s: State, a: Action)
    requires CoverageOk(s) && LogOk(s.log, s.handled) && Enabled(B, s, a) && (a.PollEvent? || a.SendMsg?)
    ensures CoverageOk(Apply(B, s, a))
  {
    var t := Apply(B, s, a);
    forall j | 0 <= j < |t.log| && j in t.handled
      ensures Covered(t.log[j], t.commitCh, Pend(t.pc), t.commits, t.ws, t.latest)
    {
      assert Covered(s.log[j], s.commitCh, Pend(s.pc), s.commits, s.ws, s.latest);
    }
  }

  /** A larger offset of a partition is also the offset of a later delivery. */
  lemma LargerIsLater(s: State, d: Entry, e: Entry)
    requires AssignOk(s.log, s.base, s.open) && d.tp == e.tp
    requires EntryOk(d, s.log, s.base, s.handled) && EntryOk(e, s.log, s.base, s.handled)
    ensures d.off < e.off <==> d.id < e.id
  {
  }

  /** Keeping the larger offset of a partition forgets nothing. */
  lemma MergeCoverage(s: State, e: Entry, rest: seq<Entry>)
    requires AssignOk(s.log, s.base, s.open) && EntriesOk(s.commitCh, Pend(s.pc), s.log, s.base, s.handled)
    requires CoverageOk(s) && s.commitCh == [e] + rest
    ensures Coverage(s.log, s.handled, rest, Merge(Pend(s.pc), e), s.commits, s.ws, s.latest)
  {
    assert s.commitCh[0] == e;
    if e.tp in Pend(s.pc) {
      LargerIsLater(s, Pend(s.pc)[e.tp], e);
    }
    forall j | 0 <= j < |s.log| && j in s.handled
      ensures Covered(s.log[j], rest, Merge(Pend(s.pc), e), s.commits, s.ws, s.latest)
    {
      var m := s.log[j];
      assert Covered(m, s.commitCh, Pend(s.pc), s.commits, s.ws, s.latest);
      if CoveredIn(s.commitCh, m) {
        var k :| 0 <= k < |s.commitCh| && Covers(s.commitCh[k], m);
        assert k > 0 ==> rest[k - 1] == s.commitCh[k];
      }
    }
  }

  /** Handing `pending` to CommitOffsets at the end of a drain forgets nothing. */
  lemma CommitPending(s: State)
    requires CoverageOk(s)
    ensures Coverage(s.log, s.handled, s.commitCh, map[], s.commits + Pend(s.pc).Values, s.ws, s.latest)
  {
    var pending := Pend(s.pc);
    var more := s.commits + pending.Values;
    forall j | 0 <= j < |s.log| && j in s.handled
      ensures Covered(s.log[j], s.commitCh, map[], more, s.ws, s.latest)
    {
      var m := s.log[j];
      assert Covered(m, s.commitCh, pending, s.commits, s.ws, s.latest);
      if m.tp in pending && Covers(pending[m.tp], m) {
        assert pending[m.tp] in more;
      }
    }
  }

  lemma CloseAllCoverage(s: State, keys: set<TP>)
    requires Coverage(s.log, s.handled, s.commitCh, map[], s.commits, s.ws, s.latest)
    ensures Coverage(s.log, s.handled, s.commitCh, map[], s.commits, CloseAll(s.ws, s.workers, keys), s.latest)
  {
    forall j | 0 <= j < |s.log| && j in s.handled
      ensures Covered(s.log[j], s.commitCh, map[], s.commits, CloseAll(s.ws, s.workers, keys), s.latest)
    {
      assert Covered(s.log[j], s.commitCh, map[], s.commits, s.ws, s.latest);
    }
  }

  lemma DispatchCoverage(s: State, m: Msg)
    requires MapOk(s.ws, s.workers, s.latest, s.open) && ClosingOk(s.pc, s.ws) && s.pc.Draining?
    requires Coverage(s.log, s.handled, s.commitCh, map[], s.commits, s.ws, s.latest)
    ensures CoverageOk(Dispatch(s, m))
  {
    var t := Dispatch(s, m);
    if m.tp !in s.workers {
      OldWorkerEmpty(s, m.tp);
    }
    forall j | 0 <= j < |t.log| && j in t.handled
      ensures Covered(t.log[j], t.commitCh, map[], t.commits, t.ws, t.latest)
    {
      assert Covered(s.log[j], s.commitCh, map[], s.commits, s.ws, s.latest);
    }
  }

  // ----- Every action keeps the invariant -----

  /** A drain has ended: the commit channel is empty and everything pending was handed to CommitOffsets. */
  ghost predicate Drained(s: State) {
    && Structure(s) && Delivery(s) && Stopping(s) && Entries(s)
    && (s.pc.Top? || (s.pc.Draining? && s.commitCh == []))
    && Coverage(s.log, s.handled, s.commitCh, map[], s.commits, s.ws, s.latest)
  }

  lemma ShutdownInv(s: State)
    requires Drained(s) && !(s.pc.Draining? && s.pc.ev.Message?)
    ensures Inv(Shutdown(s))
  {
    ShutdownKept(s);
    ShutdownStopping(s);
    CloseAllCoverage(s, s.workers.Keys);
    assert Entries(Shutdown(s));
  }

  lemma StopWorkersInv(s: State, parts: seq<TP>)
    requires Drained(s) && s.pc.Draining? && s.pc.ev == Revoked(parts)
    ensures Inv(StopWorkers(s, parts))
  {
    StopWorkersKept(s, parts);
    StopWorkersStopping(s, parts);
    CloseAllCoverage(s, set p | p in parts);
    assert Entries(StopWorkers(s, parts));
  }

  lemma DispatchStopping(s: State, m: Msg)
    requires Stopping(s) && s.pc.Draining?
    ensures Stopping(Dispatch(s, m))
  {
  }

  lemma DispatchEntries(s: State, m: Msg)
    requires Entries(s) && s.pc.Draining? && s.commitCh == []
    ensures Entries(Dispatch(s, m))
  {
  }

  lemma DispatchInv(s: State, m: Msg)
    requires Drained(s) && s.pc.Draining? && s.pc.ev == Message(m)
    ensures Inv(Dispatch(s, m))
  {
    DispatchKept(s, m);
    DispatchCoverage(s, m);
    DispatchStopping(s, m);
    DispatchEntries(s, m);
  }

  lemma HandleInv(s: State)
    requires Drained(s) && s.pc.Draining?
    ensures Inv(Handle(s, s.pc.ev))
  {
    match s.pc.ev
    case Message(m) => DispatchInv(s, m);
    case Fatal => ShutdownInv(s);
    case Revoked(parts) => StopWorkersInv(s, parts);
    case _ =>
  }

  lemma HandlerReturnInv(B: nat, s: State, w: nat)
    requires Inv(s) && Enabled(B, s, HandlerReturn(w))
    ensures Inv(Apply(B, s, HandlerReturn(w)))
  {
    WorkerStopping(B, s, HandlerReturn(w));
    HandlerReturnKept(B, s, w);
    HandlerReturnEntries(B, s, w);
    HandlerReturnCoverage(B, s, w);
  }

  lemma SendCommitInv(B: nat, s: State, w: nat)
    requires Inv(s) && Enabled(B, s, SendCommit(w))
    ensures Inv(Apply(B, s, SendCommit(w)))
  {
    WorkerStopping(B, s, SendCommit(w));
    SendCommitKept(B, s, w);
    SendCommitEntries(B, s, w);
    SendCommitCovered(B, s, w);
  }

  lemma ReceiveInv(B: nat, s: State, a: Action)
    requires Inv(s) && Enabled(B, s, a) && (a.Receive? || a.SeeClosed? || a.Exit?)
    ensures Inv(Apply(B, s, a))
  {
    ReceiveCoverage(B, s, a);
    if a.Receive? {
      WorkerStopping(B, s, a);
      ReceiveKept(B, s, a.w);
    } else {
      WorkerStopping(B, s, a);
      FinishKept(B, s, a, a.w);
    }
  }

  lemma RecvCommitCoverage(B: nat, s: State)
    requires AssignOk(s.log, s.base, s.open) && EntriesOk(s.commitCh, Pend(s.pc), s.log, s.base, s.handled)
    requires CoverageOk(s) && Enabled(B, s, RecvCommit)
    ensures CoverageOk(Apply(B, s, RecvCommit))
  {
    assert s.commitCh == [s.commitCh[0]] + s.commitCh[1..];
    MergeCoverage(s, s.commitCh[0], s.commitCh[1..]);
  }

  lemma RecvCommitStructure(B: nat, s: State)
    requires Structure(s) && Delivery(s) && Enabled(B, s, RecvCommit)
    ensures Structure(Apply(B, s, RecvCommit)) && Delivery(Apply(B, s, RecvCommit))
  {
  }

  lemma RecvCommitInv(B: nat, s: State)
    requires Inv(s) && Enabled(B, s, RecvCommit)
    ensures Inv(Apply(B, s, RecvCommit))
  {
    PollStopping(B, s, RecvCommit);
    RecvCommitEntries(B, s);
    RecvCommitCoverage(B, s);
    RecvCommitStructure(B, s);
  }

  lemma AwaitReturnInv(B: nat, s: State)
    requires Inv(s) && Enabled(B, s, AwaitReturn)
    ensures Inv(Apply(B, s, AwaitReturn))
  {
    PollStopping(B, s, AwaitReturn);
    CommitPending(s);
  }

  lemma DrainDefaultInv(B: nat, s: State)
    requires Inv(s) && Enabled(B, s, DrainDefault)
    ensures Inv(Apply(B, s, DrainDefault))
  {
    CommitPending(s);
    HandleInv(s.(commits := s.commits + Pend(s.pc).Values));
  }

  lemma PollInv(B: nat, s: State, a: Action)
    requires Inv(s) && Enabled(B, s, a)
    requires a.PollEvent? || a.SendMsg?
    ensures Inv(Apply(B, s, a))
  {
    PollStopping(B, s, a);
    PollEventCoverage(B, s, a);
    if a.PollEvent? {
      PollEventKept(B, s, a.ev);
      PollEventEntries(B, s, a.ev);
    } else {
      SendMsgKept(B, s);
    }
  }

  lemma WaiterInv(B: nat, s: State, a: Action)
    requires Inv(s) && Enabled(B, s, a)
    requires a.Cancel? || a.WaiterStep? || a.AwaitDone?
    ensures Inv(Apply(B, s, a))
  {
    PollStopping(B, s, a);
  }

  lemma InvKept(B: nat, s: State, a: Action)
    requires Inv(s) && Enabled(B, s, a)
    ensures Inv(Apply(B, s, a))
  {
    match a
    case CheckCtx =>
      if s.cancelled {
        ShutdownInv(s);
      }
    case PollEvent(_) => PollInv(B, s, a);
    case SendMsg => PollInv(B, s, a);
    case RecvCommit => RecvCommitInv(B, s);
    case DrainDefault => DrainDefaultInv(B, s);
    case AwaitReturn => AwaitReturnInv(B, s);
    case Cancel => WaiterInv(B, s, a);
    case WaiterStep => WaiterInv(B, s, a);
    case AwaitDone => WaiterInv(B, s, a);
    case HandlerReturn(w) => HandlerReturnInv(B, s, w);
    case SendCommit(w) => SendCommitInv(B, s, w);
    case _ => ReceiveInv(B, s, a);
  }

  lemma InvStep(B: nat, s: State, s': State)
    requires Step(B, s, s') && Inv(s)
    ensures Inv(s')
  {
    var a :| Enabled(B, s, a) && Apply(B, s, a) == s';
    InvKept(B, s, a);
  }

  /** The invariant holds at every point of every run. */
  lemma {:induction false} InvAlways(B: nat, run: seq<State>, i: nat)
    requires IsRun(B, run) && i < |run|
    ensures Inv(run[i])
  {
    if i > 0 {
      InvAlways(B, run, i - 1);
      assert StepAt(B, run, i - 1);
      InvStep(B, run[i - 1], run[i]);
    }
  }

  lemma InvReachable(B: nat, s: State)
    requires Reachable(B, s)
    ensures Inv(s)
  {
    var run :| IsRun(B, run) && run[|run| - 1] == s;
    InvAlways(B, run, |run| - 1);
  }
}
