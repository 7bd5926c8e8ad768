/** The per-partition Kafka consumer as a labelled transition system.

    One poll goroutine owns the `workers` map and feeds every partition worker through a bounded FIFO channel.
    The workers feed one shared bounded commit channel back to the poll goroutine.  Every action below is one
    atomic step of one goroutine; a run is any interleaving of enabled actions. */
module ConsumerModel {

  /** The key of the `workers` map. */
  datatype TP = TP(topic: string, partition: int)

  /** A message as the broker delivered it.  `id` numbers deliveries, so a redelivered offset is a new message. */
  datatype Msg = Msg(id: nat, tp: TP, off: int)

  /** What a worker sends for commit: `off` is one past the message numbered `id`. */
  datatype Entry = Entry(id: nat, tp: TP, off: int)

  type Pending = map<TP, Entry>

  /** Where a worker goroutine stands. `Finished` has closed its `done` channel, `Exited` has also left the wait
      group. */
  datatype Phase = Waiting | Handling(m: Msg) | Sending(m: Msg) | Finished | Exited

  datatype Worker = Worker(tp: TP, ch: seq<Msg>, closed: bool, phase: Phase) {
    predicate Done() { phase.Finished? || phase.Exited? }

    /** The message is queued for, or being handled by, this worker. */
    predicate Holds(m: Msg) { phase == Handling(m) || m in ch }
  }

  datatype Event = NoEvent | Message(m: Msg) | Fatal | Revoked(parts: seq<TP>) | OtherEvent

  /** The helper goroutine that closes `done`: after each listed worker is done, or after the wait group is empty. */
  datatype Waiter = NoWaiter | OnWorkers(rest: seq<nat>) | OnGroup | DoneClosed

  /** Where the poll goroutine stands.  `final` is the last non-blocking drain of `awaitWorkers`. */
  datatype Pc =
    | Top
    | Polling
    | Draining(ev: Event, pending: Pending)
    | Dispatching(w: nat, m: Msg)
    | Awaiting(targets: seq<nat>, ending: bool, final: bool, pending: Pending)
    | Stopped

  /** The first six fields are the program's; the rest is history: every delivered message, the handler calls that
      returned, every offset handed to CommitOffsets, the newest worker of a partition, and the broker's current
      assignment (`base` is the number of the first delivery of the current or last assignment). */
  datatype State = State(
    ws: seq<Worker>,
    workers: map<TP, nat>,
    commitCh: seq<Entry>,
    pc: Pc,
    waiter: Waiter,
    cancelled: bool,
    log: seq<Msg>,
    handled: set<nat>,
    commits: set<Entry>,
    latest: map<TP, nat>,
    base: map<TP, nat>,
    open: set<TP>)

  const INIT := State([], map[], [], Top, NoWaiter, false, [], {}, {}, map[], map[], {})

  datatype Action =
    | Cancel
    | CheckCtx
    | PollEvent(ev: Event)
    | RecvCommit
    | DrainDefault
    | SendMsg
    | WaiterStep
    | AwaitDone
    | AwaitReturn
    | Receive(w: nat)
    | HandlerReturn(w: nat)
    | SendCommit(w: nat)
    | SeeClosed(w: nat)
    | Exit(w: nat)

  /** Capacity of the commit channel for a channel buffer of size `B`. */
  function CommitCap(B: nat): nat { 16 * B }

  /** What the broker promises: within one assignment of a partition the delivered offsets strictly increase. */
  ghost predicate Deliverable(s: State, m: Msg) {
    && m.id == |s.log|
    && (m.tp in s.open && m.tp in s.base ==>
          forall j :: s.base[m.tp] <= j < |s.log| && s.log[j].tp == m.tp ==> s.log[j].off < m.off)
  }

  ghost predicate WaiterReady(s: State) {
    match s.waiter
    case OnWorkers(rest) => rest == [] || (rest[0] < |s.ws| && s.ws[rest[0]].Done())
    case OnGroup => forall i :: 0 <= i < |s.ws| ==> s.ws[i].phase.Exited?
    case _ => false
  }

  ghost predicate Enabled(B: nat, s: State, a: Action) {
    match a
    case Cancel => !s.cancelled
    case CheckCtx => s.pc.Top?
    case PollEvent(ev) => s.pc.Polling? && (ev.Message? ==> Deliverable(s, ev.m))
    case RecvCommit => (s.pc.Draining? || s.pc.Awaiting?) && s.commitCh != []
    case DrainDefault => s.pc.Draining? && s.commitCh == []
    case SendMsg => s.pc.Dispatching? && s.pc.w < |s.ws| && |s.ws[s.pc.w].ch| < B
    case WaiterStep => WaiterReady(s)
    case AwaitDone => s.pc.Awaiting? && !s.pc.final && s.waiter.DoneClosed?
    case AwaitReturn => s.pc.Awaiting? && s.pc.final && s.commitCh == []
    case Receive(w) => w < |s.ws| && s.ws[w].phase.Waiting? && s.ws[w].ch != []
    case HandlerReturn(w) => w < |s.ws| && s.ws[w].phase.Handling?
    case SendCommit(w) => w < |s.ws| && s.ws[w].phase.Sending? && |s.commitCh| < CommitCap(B)
    case SeeClosed(w) => w < |s.ws| && s.ws[w].phase.Waiting? && s.ws[w].ch == [] && s.ws[w].closed
    case Exit(w) => w < |s.ws| && s.ws[w].phase.Finished?
  }

  /** The body shared by the drain loops: keep the larger offset of a partition. */
  function Merge(pending: Pending, e: Entry): Pending {
    if e.tp !in pending || e.off > pending[e.tp].off then pending[e.tp := e] else pending
  }

  /** The workers that stopping `parts` waits for, in the order of `parts`; a repeated partition counts once. */
  function Targets(workers: map<TP, nat>, parts: seq<TP>): seq<nat> {
    if parts == [] then []
    else if parts[0] in workers then [workers[parts[0]]] + Targets(workers - {parts[0]}, parts[1..])
    else Targets(workers, parts[1..])
  }

  /** Close the channel of every worker registered for a partition in `keys`. */
  function CloseAll(ws: seq<Worker>, workers: map<TP, nat>, keys: set<TP>): seq<Worker> {
    seq(|ws|, i requires 0 <= i < |ws| =>
      if ws[i].tp in keys && ws[i].tp in workers && workers[ws[i].tp] == i then ws[i].(closed := true) else ws[i])
  }

  function Shutdown(s: State): State {
    s.(ws := CloseAll(s.ws, s.workers, s.workers.Keys),
       workers := map[],
       waiter := OnGroup,
       pc := Awaiting([], true, false, map[]))
  }

  function StopWorkers(s: State, parts: seq<TP>): State {
    var keys := set p | p in parts;
    var targets := Targets(s.workers, parts);
    var s' := s.(ws := CloseAll(s.ws, s.workers, keys), workers := s.workers - keys, open := s.open - keys);
    if targets == [] then s'.(pc := Top)
    else s'.(waiter := OnWorkers(targets), pc := Awaiting(targets, false, false, map[]))
  }

  /** Find or start the worker of the message's partition; the send itself is the action `SendMsg`. */
  function Dispatch(s: State, m: Msg): State {
    if m.tp in s.workers then s.(pc := Dispatching(s.workers[m.tp], m))
    else s.(ws := s.ws + [Worker(m.tp, [], false, Waiting)],
            workers := s.workers[m.tp := |s.ws|],
            latest := s.latest[m.tp := |s.ws|],
            pc := Dispatching(|s.ws|, m))
  }

  function Handle(s: State, ev: Event): State {
    match ev
    case Message(m) => Dispatch(s, m)
    case Fatal => Shutdown(s)
    case Revoked(parts) => StopWorkers(s, parts)
    case _ => s.(pc := Top)
  }

  function Deliver(s: State, ev: Event): State {
    var s' := s.(pc := Draining(ev, map[]));
    if ev.Message? then
      s'.(log := s.log + [ev.m],
          base := if ev.m.tp in s.open then s.base else s.base[ev.m.tp := |s.log|],
          open := s.open + {ev.m.tp})
    else s'
  }

  function Pend(pc: Pc): Pending {
    if pc.Draining? || pc.Awaiting? then pc.pending else map[]
  }

  function SetPhase(s: State, w: nat, phase: Phase): State
    requires w < |s.ws|
  {
    s.(ws := s.ws[w := s.ws[w].(phase := phase)])
  }

  ghost function Apply(B: nat, s: State, a: Action): State
    requires Enabled(B, s, a)
  {
    match a
    case Cancel => s.(cancelled := true)
    case CheckCtx => if s.cancelled then Shutdown(s) else s.(pc := Polling)
    case PollEvent(ev) => Deliver(s, ev)
    case RecvCommit =>
      s.(commitCh := s.commitCh[1..], pc := s.pc.(pending := Merge(s.pc.pending, s.commitCh[0])))
    case DrainDefault => Handle(s.(commits := s.commits + s.pc.pending.Values), s.pc.ev)
    case SendMsg =>
      s.(ws := s.ws[s.pc.w := s.ws[s.pc.w].(ch := s.ws[s.pc.w].ch + [s.pc.m])], pc := Top)
    case WaiterStep =>
      s.(waiter := if s.waiter.OnWorkers? && s.waiter.rest != [] then OnWorkers(s.waiter.rest[1..]) else DoneClosed)
    case AwaitDone => s.(pc := s.pc.(final := true))
    case AwaitReturn =>
      s.(commits := s.commits + s.pc.pending.Values, waiter := NoWaiter, pc := if s.pc.ending then Stopped else Top)
    case Receive(w) =>
      s.(ws := s.ws[w := s.ws[w].(phase := Handling(s.ws[w].ch[0]), ch := s.ws[w].ch[1..])])
    case HandlerReturn(w) =>
      SetPhase(s, w, Sending(s.ws[w].phase.m)).(handled := s.handled + {s.ws[w].phase.m.id})
    case SendCommit(w) =>
      var m := s.ws[w].phase.m;
      SetPhase(s, w, Waiting).(commitCh := s.commitCh + [Entry(m.id, m.tp, m.off + 1)])
    case SeeClosed(w) => SetPhase(s, w, Finished)
    case Exit(w) => SetPhase(s, w, Exited)
  }

  /** `run` is a run of the consumer with channel size `B`: it starts in `INIT` and every step is an enabled action. */
  ghost predicate Step(B: nat, s: State, s': State) {
    exists a :: Enabled(B, s, a) && Apply(B, s, a) == s'
  }

  /** Entry `i` of a run leads to the next one, if there is one. */
  ghost predicate StepAt(B: nat, run: seq<State>, i: nat) {
    i + 1 < |run| ==> Step(B, run[i], run[i + 1])
  }

  ghost predicate IsRun(B: nat, run: seq<State>) {
    && |run| > 0
    && run[0] == INIT
    && forall i: nat :: StepAt(B, run, i)
  }

  ghost predicate Reachable(B: nat, s: State) {
    exists run :: IsRun(B, run) && run[|run| - 1] == s
  }

  /** One more step of a run is a run. */
  lemma Extend(B: nat, s: State, a: Action)
    requires Reachable(B, s) && Enabled(B, s, a)
    ensures Reachable(B, Apply(B, s, a))
  {
    var run :| IsRun(B, run) && run[|run| - 1] == s;
    var longer := run + [Apply(B, s, a)];
    forall i: nat
      ensures StepAt(B, longer, i)
    {
      assert StepAt(B, run, i);
    }
    assert IsRun(B, longer) && longer[|longer| - 1] == Apply(B, s, a);
  }
}
