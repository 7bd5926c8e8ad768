/** The transactional outbox: writers that create and update orders, and any number of relays that publish outbox rows,
    all in database transactions that may abort at any statement.  A publish is not rolled back. */
module OutboxModel {

  datatype Kind = CreateOrder | OrderConfirmed | OrderCancelled

  datatype Status = Pending | Confirmed | Cancelled

  /** An outbox row; `order` is the order-id header of the message. */
  datatype Row = Row(kind: Kind, order: nat, created: int, published: bool, retries: nat)

  const MAX_RETRIES: nat := 5

  /** The rows a relay may pick. */
  predicate Eligible(row: Row) { !row.published && row.retries < MAX_RETRIES }

  /** What a relay transaction does next with the message at its position. */
  datatype Stage = ToPublish | ToMark | ToRetry

  /** A relay between transactions, or inside one: the batch it has locked, how far it is, its own row updates, and
      the publishes that returned without an error. */
  datatype Relay = Resting | InTx(batch: seq<nat>, pos: nat, stage: Stage, view: map<nat, Row>, acked: multiset<nat>)

  /** What a writer transaction is for: inserting a new order, or changing the status of an old one. */
  datatype Intent = NewOrder(order: nat) | SetStatus(order: nat, status: Status)

  /** A writer between transactions, or inside one, before and after its two statements. */
  datatype Writer = NoTx | Begun(tx: Intent) | Ordered(tx: Intent) | Enqueued(tx: Intent, id: nat, row: Row)

  /** `orders`, `rows` and `nextId` are the database; `acks` counts the publishes that returned without an error, and
      `aborted` those among them whose transaction aborted afterwards. */
  datatype State = State(
    orders: map<nat, Status>,
    rows: map<nat, Row>,
    nextId: nat,
    relays: seq<Relay>,
    writers: seq<Writer>,
    acks: multiset<nat>,
    aborted: multiset<nat>)

  function Start(k: nat, w: nat): State {
    State(map[], map[], 0, seq(k, _ => Resting), seq(w, _ => NoTx), multiset{}, multiset{})
  }

  datatype Action =
    | Begin(r: nat, batch: seq<nat>)
    | PublishOk(r: nat)
    | PublishErr(r: nat)
    | MarkPublished(r: nat)
    | UpdateRetryCount(r: nat)
    | Commit(r: nat)
    | Abort(r: nat)
    | BeginWrite(w: nat, tx: Intent)
    | WriteOrder(w: nat)
    | InsertRow(w: nat, created: int)
    | CommitWrite(w: nat)
    | AbortWrite(w: nat)

  /** The rows locked by some relay. */
  ghost predicate Locked(relays: seq<Relay>, id: nat) {
    exists r :: 0 <= r < |relays| && relays[r].InTx? && id in relays[r].batch
  }

  ghost predicate Selectable(s: State, id: nat) {
    id in s.rows && Eligible(s.rows[id]) && !Locked(s.relays, id)
  }

  /** The result of the batch query: the oldest selectable rows, at most `limit`, skipping locked ones. */
  ghost predicate IsBatch(s: State, limit: nat, batch: seq<nat>) {
    && |batch| <= limit
    && (forall i :: 0 <= i < |batch| ==> Selectable(s, batch[i]))
    && (forall i, j :: 0 <= i < j < |batch| ==> batch[i] != batch[j])
    && (forall i, j :: 0 <= i < j < |batch| ==> s.rows[batch[i]].created <= s.rows[batch[j]].created)
    && (forall id :: Selectable(s, id) && id !in batch ==>
          |batch| == limit && forall i :: 0 <= i < |batch| ==> s.rows[batch[i]].created <= s.rows[id].created)
  }

  predicate WritesOrder(w: Writer, order: nat) {
    (w.Ordered? || w.Enqueued?) && w.tx == NewOrder(order)
  }

  /** An uncommitted insert of the same order blocks a second one. */
  ghost predicate Inserting(writers: seq<Writer>, order: nat) {
    exists w :: 0 <= w < |writers| && WritesOrder(writers[w], order)
  }

  ghost predicate InStage(s: State, r: nat, stage: Stage) {
    r < |s.relays| && s.relays[r].InTx? && s.relays[r].pos < |s.relays[r].batch| && s.relays[r].stage == stage
    && s.relays[r].batch[s.relays[r].pos] in s.rows
  }

  ghost predicate Enabled(limit: nat, s: State, a: Action) {
    match a
    case Begin(r, batch) => r < |s.relays| && s.relays[r].Resting? && IsBatch(s, limit, batch)
    case PublishOk(r) => InStage(s, r, ToPublish)
    case PublishErr(r) => InStage(s, r, ToPublish)
    case MarkPublished(r) => InStage(s, r, ToMark)
    case UpdateRetryCount(r) => InStage(s, r, ToRetry)
    case Commit(r) => r < |s.relays| && s.relays[r].InTx? && s.relays[r].pos == |s.relays[r].batch|
    case Abort(r) => r < |s.relays| && s.relays[r].InTx?
    case BeginWrite(w, _) => w < |s.writers| && s.writers[w].NoTx?
    case WriteOrder(w) =>
      && w < |s.writers| && s.writers[w].Begun?
      && (s.writers[w].tx.NewOrder? ==>
            s.writers[w].tx.order !in s.orders && !Inserting(s.writers, s.writers[w].tx.order))
    case InsertRow(w, _) => w < |s.writers| && s.writers[w].Ordered?
    case CommitWrite(w) => w < |s.writers| && s.writers[w].Enqueued?
    case AbortWrite(w) => w < |s.writers| && !s.writers[w].NoTx?
  }

  function SetRelay(s: State, r: nat, relay: Relay): State
    requires r < |s.relays|
  {
    s.(relays := s.relays[r := relay])
  }

  function SetWriter(s: State, w: nat, writer: Writer): State
    requires w < |s.writers|
  {
    s.(writers := s.writers[w := writer])
  }

  /** The event type of the row: the command for a new order, an event for a status change. */
  function KindOf(tx: Intent): Kind {
    match tx
    case NewOrder(_) => CreateOrder
    case SetStatus(_, Cancelled) => OrderCancelled
    case SetStatus(_, _) => OrderConfirmed
  }

  /** The orders table after the transaction's statement; updating a missing order changes nothing. */
  function Written(orders: map<nat, Status>, tx: Intent): map<nat, Status> {
    match tx
    case NewOrder(order) => orders[order := Pending]
    case SetStatus(order, status) => if order in orders then orders[order := status] else orders
  }

  ghost function Apply(limit: nat, s: State, a: Action): State
    requires Enabled(limit, s, a)
  {
    match a
    case Begin(r, batch) => SetRelay(s, r, InTx(batch, 0, ToPublish, map[], multiset{}))
    case PublishOk(r) =>
      var id := s.relays[r].batch[s.relays[r].pos];
      var relay := s.relays[r].(stage := ToMark, acked := s.relays[r].acked + multiset{id});
      SetRelay(s, r, relay).(acks := s.acks + multiset{id})
    case PublishErr(r) => SetRelay(s, r, s.relays[r].(stage := ToRetry))
    case MarkPublished(r) =>
      var id := s.relays[r].batch[s.relays[r].pos];
      SetRelay(s, r, s.relays[r].(stage := ToPublish, pos := s.relays[r].pos + 1,
                                  view := s.relays[r].view[id := s.rows[id].(published := true)]))
    case UpdateRetryCount(r) =>
      var id := s.relays[r].batch[s.relays[r].pos];
      SetRelay(s, r, s.relays[r].(stage := ToPublish, pos := s.relays[r].pos + 1,
                                  view := s.relays[r].view[id := s.rows[id].(retries := s.rows[id].retries + 1)]))
    case Commit(r) => SetRelay(s, r, Resting).(rows := s.rows + s.relays[r].view)
    case Abort(r) => SetRelay(s, r, Resting).(aborted := s.aborted + s.relays[r].acked)
    case BeginWrite(w, tx) => SetWriter(s, w, Begun(tx))
    case WriteOrder(w) => SetWriter(s, w, Ordered(s.writers[w].tx))
    case InsertRow(w, created) =>
      var tx := s.writers[w].tx;
      SetWriter(s, w, Enqueued(tx, s.nextId, Row(KindOf(tx), tx.order, created, false, 0))).(nextId := s.nextId + 1)
    case CommitWrite(w) =>
      SetWriter(s, w, NoTx).(rows := s.rows[s.writers[w].id := s.writers[w].row],
                             orders := Written(s.orders, s.writers[w].tx))
    case AbortWrite(w) => SetWriter(s, w, NoTx)
  }

  ghost predicate Step(limit: nat, s: State, s': State) {
    exists a :: Enabled(limit, s, a) && Apply(limit, s, a) == s'
  }

  /** Entry `i` of a run leads to the next one, if there is one. */
  ghost predicate StepAt(limit: nat, run: seq<State>, i: nat) {
    i + 1 < |run| ==> Step(limit, run[i], run[i + 1])
  }

  ghost predicate IsRun(limit: nat, run: seq<State>) {
    && |run| > 0
    && (exists k: nat, w: nat :: run[0] == Start(k, w))
    && forall i: nat :: StepAt(limit, run, i)
  }

  ghost predicate Reachable(limit: nat, s: State) {
    exists run :: IsRun(limit, run) && run[|run| - 1] == s
  }
}
