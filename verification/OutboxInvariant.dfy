/** What every reachable state of the outbox satisfies, for any number of relays and writers. */
module OutboxInvariant {
  import opened OutboxModel

  /** The row a finished message of a batch will be replaced by: published if the publish was acknowledged. */
  ghost predicate Outcome(row: Row, after: Row, acked: nat) {
    (acked == 1 && after == row.(published := true)) || (acked == 0 && after == row.(retries := row.retries + 1))
  }

  /** An open relay transaction: its batch is locked and still selectable, its updates cover exactly the messages done
      so far, and it has acknowledged publishes only for those and the one being marked. */
  ghost predicate RelayOk(rows: map<nat, Row>, relay: Relay) {
    relay.InTx? ==>
      && (forall i, j :: 0 <= i < j < |relay.batch| ==> relay.batch[i] != relay.batch[j])
      && (forall i :: 0 <= i < |relay.batch| ==> relay.batch[i] in rows && Eligible(rows[relay.batch[i]]))
      && relay.pos <= |relay.batch| && (relay.pos == |relay.batch| ==> relay.stage.ToPublish?)
      && (forall id :: id in relay.view <==> id in relay.batch[..relay.pos])
      && (forall i :: 0 <= i < relay.pos ==>
            Outcome(rows[relay.batch[i]], relay.view[relay.batch[i]], relay.acked[relay.batch[i]]))
      && (forall i :: relay.pos <= i < |relay.batch| ==>
            relay.acked[relay.batch[i]] == if i == relay.pos && relay.stage.ToMark? then 1 else 0)
      && (forall id :: id in relay.acked ==> id in relay.batch)
  }

  ghost predicate RelaysOk(rows: map<nat, Row>, relays: seq<Relay>) {
    && (forall r :: 0 <= r < |relays| ==> RelayOk(rows, relays[r]))
    && (forall r, q, id :: 0 <= r < q < |relays| && relays[r].InTx? && relays[q].InTx? && id in relays[r].batch ==>
          id !in relays[q].batch)
  }

  /** Every row is published, pending, or parked after exactly five failed attempts. */
  ghost predicate RowsOk(rows: map<nat, Row>, nextId: nat) {
    forall id :: id in rows ==> id < nextId && rows[id].retries <= MAX_RETRIES
  }

  ghost predicate WriterOk(rows: map<nat, Row>, orders: map<nat, Status>, nextId: nat, w: Writer) {
    && (w.Enqueued? ==>
          w.id < nextId && w.id !in rows && w.row == Row(KindOf(w.tx), w.tx.order, w.row.created, false, 0))
    && (forall order :: WritesOrder(w, order) ==> order !in orders)
  }

  ghost predicate WritersOk(rows: map<nat, Row>, orders: map<nat, Status>, nextId: nat, writers: seq<Writer>) {
    && (forall w :: 0 <= w < |writers| ==> WriterOk(rows, orders, nextId, writers[w]))
    && (forall v, w :: 0 <= v < w < |writers| && writers[v].Enqueued? && writers[w].Enqueued? ==>
          writers[v].id != writers[w].id)
    && (forall v, w, order :: 0 <= v < w < |writers| && WritesOrder(writers[v], order) ==>
          !WritesOrder(writers[w], order))
  }

  predicate Commands(row: Row, order: nat) { row.kind.CreateOrder? && row.order == order }

  /** Every committed order has exactly one command row, and only committed orders have one. */
  ghost predicate OrdersOk(rows: map<nat, Row>, orders: map<nat, Status>) {
    && (forall order :: order in orders ==> exists id :: id in rows && Commands(rows[id], order))
    && (forall id, order :: id in rows && Commands(rows[id], order) ==> order in orders)
    && (forall i, j, order :: i in rows && j in rows && Commands(rows[i], order) && Commands(rows[j], order) ==> i == j)
  }

  ghost function AckedBy(relay: Relay, id: nat): nat {
    if relay.InTx? then relay.acked[id] else 0
  }

  /** Acknowledged publishes of a row inside transactions that are still open. */
  ghost function OpenAcks(relays: seq<Relay>, id: nat): nat {
    if relays == [] then 0
    else OpenAcks(relays[..|relays| - 1], id) + AckedBy(relays[|relays| - 1], id)
  }

  function IsPublished(rows: map<nat, Row>, id: nat): nat {
    if id in rows && rows[id].published then 1 else 0
  }

  /** The conservation law. */
  ghost predicate AcksOk(s: State) {
    forall id :: s.acks[id] == IsPublished(s.rows, id) + s.aborted[id] + OpenAcks(s.relays, id)
  }

  ghost predicate Inv(s: State) {
    && RelaysOk(s.rows, s.relays) && RowsOk(s.rows, s.nextId)
    && WritersOk(s.rows, s.orders, s.nextId, s.writers) && OrdersOk(s.rows, s.orders)
    && AcksOk(s)
  }

  lemma {:induction false} OpenAcksUpdate(relays: seq<Relay>, r: nat, relay: Relay, id: nat)
    requires r < |relays|
    ensures OpenAcks(relays[r := relay], id) + AckedBy(relays[r], id) == OpenAcks(relays, id) + AckedBy(relay, id)
  {
    var n := |relays| - 1;
    if r == n {
      assert relays[r := relay][..n] == relays[..n];
    } else {
      assert relays[r := relay][..n] == relays[..n][r := relay];
      OpenAcksUpdate(relays[..n], r, relay, id);
    }
  }

  // ----- Every action keeps the invariant -----

  predicate ByRelay(a: Action) {
    a.Begin? || a.PublishOk? || a.PublishErr? || a.MarkPublished? || a.UpdateRetryCount? || a.Commit? || a.Abort?
  }

  /** A commit turns the acknowledged publishes of a transaction into published rows, one for one. */
  lemma CommitAcks(rows: map<nat, Row>, relay: Relay, id: nat)
    requires RelayOk(rows, relay) && relay.InTx? && relay.pos == |relay.batch|
    ensures IsPublished(rows + relay.view, id) == IsPublished(rows, id) + AckedBy(relay, id)
  {
    assert relay.batch[..relay.pos] == relay.batch;
    if id in relay.batch {
      var i :| 0 <= i < |relay.batch| && relay.batch[i] == id;
      assert Outcome(rows[id], relay.view[id], relay.acked[id]);
    }
  }

  lemma AcksKept(limit: nat, s: State, a: Action)
    requires Inv(s) && Enabled(limit, s, a) && ByRelay(a)
    ensures AcksOk(Apply(limit, s, a))
  {
    var t := Apply(limit, s, a);
    forall id
      ensures t.acks[id] == IsPublished(t.rows, id) + t.aborted[id] + OpenAcks(t.relays, id)
    {
      OpenAcksUpdate(s.relays, a.r, t.relays[a.r], id);
      if a.Commit? {
        CommitAcks(s.rows, s.relays[a.r], id);
      }
    }
  }

  /** The publish of the current message returns without an error. */
  lemma Acknowledge(rows: map<nat, Row>, relay: Relay)
    requires RelayOk(rows, relay) && relay.InTx? && relay.pos < |relay.batch| && relay.stage.ToPublish?
    ensures RelayOk(rows, relay.(stage := ToMark, acked := relay.acked + multiset{relay.batch[relay.pos]}))
  {
  }

  /** Before commit or abort a relay action changes only its own transaction. */
  lemma PublishStep(limit: nat, s: State, a: Action)
    requires RelaysOk(s.rows, s.relays) && Enabled(limit, s, a) && (a.PublishOk? || a.PublishErr?)
    ensures RelayOk(s.rows, Apply(limit, s, a).relays[a.r])
  {
    var relay := s.relays[a.r];
    assert RelayOk(s.rows, relay);
    if a.PublishOk? {
      Acknowledge(s.rows, relay);
    }
  }

  /** Finishing the current message of a batch. */
  lemma Advance(rows: map<nat, Row>, relay: Relay, after: Row)
    requires RelayOk(rows, relay) && relay.InTx? && relay.pos < |relay.batch|
    requires Outcome(rows[relay.batch[relay.pos]], after, relay.acked[relay.batch[relay.pos]])
    ensures var view := relay.view[relay.batch[relay.pos] := after];
            RelayOk(rows, relay.(stage := ToPublish, pos := relay.pos + 1, view := view))
  {
    assert relay.batch[..relay.pos + 1] == relay.batch[..relay.pos] + [relay.batch[relay.pos]];
  }

  /** A row after its publish was acknowledged, or was not. */
  function Marked(row: Row, ok: bool): Row {
    if ok then row.(published := true) else row.(retries := row.retries + 1)
  }

  lemma AdvanceStep(limit: nat, s: State, a: Action)
    requires Enabled(limit, s, a) && (a.MarkPublished? || a.UpdateRetryCount?)
    ensures var relay := s.relays[a.r];
            var id := relay.batch[relay.pos];
            var view := relay.view[id := Marked(s.rows[id], a.MarkPublished?)];
            Apply(limit, s, a).relays[a.r] == relay.(stage := ToPublish, pos := relay.pos + 1, view := view)
  {
  }

  lemma MarkStep(limit: nat, s: State, a: Action)
    requires RelaysOk(s.rows, s.relays) && Enabled(limit, s, a) && (a.MarkPublished? || a.UpdateRetryCount?)
    ensures RelayOk(s.rows, Apply(limit, s, a).relays[a.r])
  {
    var relay := s.relays[a.r];
    var id := relay.batch[relay.pos];
    assert RelayOk(s.rows, relay);
    Advance(s.rows, relay, Marked(s.rows[id], a.MarkPublished?));
    AdvanceStep(limit, s, a);
  }

  lemma RelaysKept(s: State, r: nat, relay: Relay)
    requires RelaysOk(s.rows, s.relays) && r < |s.relays| && RelayOk(s.rows, relay)
    requires relay.InTx? ==> s.relays[r].InTx? && relay.batch == s.relays[r].batch
    ensures RelaysOk(s.rows, s.relays[r := relay])
  {
  }

  /** A row that another relay has locked is not touched by a commit. */
  lemma CommitKeepsOthers(rows: map<nat, Row>, relays: seq<Relay>, r: nat, q: nat)
    requires RelaysOk(rows, relays) && r < |relays| && q < |relays| && q != r && relays[r].InTx?
    ensures RelayOk(rows + relays[r].view, relays[q])
  {
    assert RelayOk(rows, relays[r]) && RelayOk(rows, relays[q]);
    if relays[q].InTx? {
      forall i | 0 <= i < |relays[q].batch|
        ensures (rows + relays[r].view)[relays[q].batch[i]] == rows[relays[q].batch[i]]
      {
        assert relays[q].batch[i] !in relays[r].batch;
      }
    }
  }

  lemma CommitRelays(s: State, r: nat)
    requires RelaysOk(s.rows, s.relays) && r < |s.relays| && s.relays[r].InTx?
    ensures RelaysOk(s.rows + s.relays[r].view, s.relays[r := Resting])
  {
    forall q | 0 <= q < |s.relays| && q != r
      ensures RelayOk(s.rows + s.relays[r].view, s.relays[q])
    {
      CommitKeepsOthers(s.rows, s.relays, r, q);
    }
  }

  /** A commit does not change what a row is about. */
  lemma CommitCommands(rows: map<nat, Row>, relay: Relay)
    requires RelayOk(rows, relay) && relay.InTx?
    ensures (rows + relay.view).Keys == rows.Keys
    ensures forall id, order :: id in rows ==> (Commands((rows + relay.view)[id], order) <==> Commands(rows[id], order))
  {
    forall id | id in relay.view
      ensures id in rows && relay.view[id].kind == rows[id].kind && relay.view[id].order == rows[id].order
    {
      var i :| 0 <= i < relay.pos && relay.batch[i] == id;
      assert Outcome(rows[id], relay.view[id], relay.acked[id]);
    }
  }

  lemma CommitOrders(rows: map<nat, Row>, orders: map<nat, Status>, relay: Relay)
    requires OrdersOk(rows, orders) && RelayOk(rows, relay) && relay.InTx?
    ensures OrdersOk(rows + relay.view, orders)
  {
    var after := rows + relay.view;
    CommitCommands(rows, relay);
    forall order | order in orders
      ensures exists id :: id in after && Commands(after[id], order)
    {
      var id :| id in rows && Commands(rows[id], order);
      assert id in after && Commands(after[id], order);
    }
  }

  lemma CommitRows(limit: nat, s: State, r: nat)
    requires Inv(s) && Enabled(limit, s, Commit(r))
    ensures RowsOk(Apply(limit, s, Commit(r)).rows, s.nextId)
    ensures WritersOk(Apply(limit, s, Commit(r)).rows, s.orders, s.nextId, s.writers)
  {
  }

  lemma CommitKept(limit: nat, s: State, r: nat)
    requires Inv(s) && Enabled(limit, s, Commit(r))
    ensures Inv(Apply(limit, s, Commit(r)))
  {
    AcksKept(limit, s, Commit(r));
    CommitRelays(s, r);
    CommitOrders(s.rows, s.orders, s.relays[r]);
    CommitRows(limit, s, r);
  }

  lemma BeginRelays(limit: nat, s: State, r: nat, batch: seq<nat>)
    requires RelaysOk(s.rows, s.relays) && Enabled(limit, s, Begin(r, batch))
    ensures RelaysOk(s.rows, Apply(limit, s, Begin(r, batch)).relays)
  {
  }

  lemma RelayKept(limit: nat, s: State, a: Action)
    requires Inv(s) && Enabled(limit, s, a) && ByRelay(a) && !a.Commit?
    ensures Inv(Apply(limit, s, a))
  {
    AcksKept(limit, s, a);
    if a.Begin? {
      BeginRelays(limit, s, a.r, a.batch);
    } else {
      if a.PublishOk? || a.PublishErr? {
        PublishStep(limit, s, a);
      } else if !a.Abort? {
        MarkStep(limit, s, a);
      }
      RelaysKept(s, a.r, Apply(limit, s, a).relays[a.r]);
    }
  }

  lemma CommitWriteOrders(limit: nat, s: State, w: nat)
    requires Inv(s) && Enabled(limit, s, CommitWrite(w))
    ensures OrdersOk(Apply(limit, s, CommitWrite(w)).rows, Apply(limit, s, CommitWrite(w)).orders)
  {
    var t := Apply(limit, s, CommitWrite(w));
    var id := s.writers[w].id;
    assert WriterOk(s.rows, s.orders, s.nextId, s.writers[w]);
    forall order | order in t.orders
      ensures exists i :: i in t.rows && Commands(t.rows[i], order)
    {
      if order in s.orders {
        var i :| i in s.rows && Commands(s.rows[i], order);
        assert i in t.rows && Commands(t.rows[i], order);
      } else {
        assert id in t.rows && Commands(t.rows[id], order);
      }
    }
    if s.writers[w].tx.NewOrder? {
      assert WritesOrder(s.writers[w], s.writers[w].tx.order);
    }
  }

  lemma WriteOrderWriters(limit: nat, s: State, w: nat)
    requires WritersOk(s.rows, s.orders, s.nextId, s.writers) && Enabled(limit, s, WriteOrder(w))
    ensures WritersOk(s.rows, s.orders, s.nextId, Apply(limit, s, WriteOrder(w)).writers)
  {
  }

  lemma InsertRowWriters(limit: nat, s: State, w: nat, created: int)
    requires WritersOk(s.rows, s.orders, s.nextId, s.writers) && RowsOk(s.rows, s.nextId)
    requires Enabled(limit, s, InsertRow(w, created))
    ensures WritersOk(s.rows, s.orders, s.nextId + 1, Apply(limit, s, InsertRow(w, created)).writers)
  {
  }

  lemma WriterWriters(limit: nat, s: State, a: Action)
    requires WritersOk(s.rows, s.orders, s.nextId, s.writers) && RowsOk(s.rows, s.nextId) && Enabled(limit, s, a)
    requires a.BeginWrite? || a.WriteOrder? || a.InsertRow? || a.AbortWrite?
    ensures var t := Apply(limit, s, a); WritersOk(t.rows, t.orders, t.nextId, t.writers)
  {
    if a.WriteOrder? {
      WriteOrderWriters(limit, s, a.w);
    } else if a.InsertRow? {
      InsertRowWriters(limit, s, a.w, a.created);
    }
  }

  lemma WriterKept(limit: nat, s: State, a: Action)
    requires Inv(s) && Enabled(limit, s, a) && (a.BeginWrite? || a.WriteOrder? || a.InsertRow? || a.AbortWrite?)
    ensures Inv(Apply(limit, s, a))
  {
    WriterWriters(limit, s, a);
    assert AcksOk(Apply(limit, s, a));
  }

  lemma NewRowRelays(rows: map<nat, Row>, relays: seq<Relay>, id: nat, row: Row)
    requires RelaysOk(rows, relays) && id !in rows
    ensures RelaysOk(rows[id := row], relays)
  {
    forall r | 0 <= r < |relays| ensures RelayOk(rows[id := row], relays[r]) {
      assert RelayOk(rows, relays[r]);
    }
  }

  lemma NewRowPublished(rows: map<nat, Row>, id: nat, row: Row)
    requires id !in rows && !row.published
    ensures forall k :: IsPublished(rows[id := row], k) == IsPublished(rows, k)
  {
  }

  lemma CommitWriteRows(limit: nat, s: State, w: nat)
    requires Inv(s) && Enabled(limit, s, CommitWrite(w))
    ensures var t := Apply(limit, s, CommitWrite(w));
            RelaysOk(t.rows, t.relays) && RowsOk(t.rows, t.nextId) && AcksOk(t)
  {
    var writer := s.writers[w];
    assert WriterOk(s.rows, s.orders, s.nextId, writer);
    NewRowRelays(s.rows, s.relays, writer.id, writer.row);
    NewRowPublished(s.rows, writer.id, writer.row);
  }

  lemma CommitWriteWriters(limit: nat, s: State, w: nat)
    requires WritersOk(s.rows, s.orders, s.nextId, s.writers) && Enabled(limit, s, CommitWrite(w))
    ensures var t := Apply(limit, s, CommitWrite(w)); WritersOk(t.rows, t.orders, t.nextId, t.writers)
  {
  }

  lemma CommitWriteKept(limit: nat, s: State, w: nat)
    requires Inv(s) && Enabled(limit, s, CommitWrite(w))
    ensures Inv(Apply(limit, s, CommitWrite(w)))
  {
    CommitWriteOrders(limit, s, w);
    CommitWriteRows(limit, s, w);
    CommitWriteWriters(limit, s, w);
  }

  lemma InvKept(limit: nat, s: State, a: Action)
    requires Inv(s) && Enabled(limit, s, a)
    ensures Inv(Apply(limit, s, a))
  {
    if a.Commit? {
      CommitKept(limit, s, a.r);
    } else if ByRelay(a) {
      RelayKept(limit, s, a);
    } else if a.CommitWrite? {
      CommitWriteKept(limit, s, a.w);
    } else {
      WriterKept(limit, s, a);
    }
  }

  lemma {:induction false} NothingOpen(k: nat, id: nat)
    ensures OpenAcks(seq(k, _ => Resting), id) == 0
  {
    if k > 0 {
      assert seq(k, _ => Resting)[..k - 1] == seq(k - 1, _ => Resting);
      NothingOpen(k - 1, id);
    }
  }

  lemma InvStart(k: nat, w: nat)
    ensures Inv(Start(k, w))
  {
    forall id
      ensures OpenAcks(Start(k, w).relays, id) == 0
    {
      NothingOpen(k, id);
    }
  }

  lemma InvStep(limit: nat, s: State, s': State)
    requires Inv(s) && Step(limit, s, s')
    ensures Inv(s')
  {
    var a :| Enabled(limit, s, a) && Apply(limit, s, a) == s';
    InvKept(limit, s, a);
  }

  lemma {:induction false} InvAlways(limit: nat, run: seq<State>, i: nat)
    requires IsRun(limit, run) && i < |run|
    ensures Inv(run[i])
  {
    if i == 0 {
      var k: nat, w: nat :| run[0] == Start(k, w);
      InvStart(k, w);
    } else {
      InvAlways(limit, run, i - 1);
      assert StepAt(limit, run, i - 1);
      InvStep(limit, run[i - 1], run[i]);
    }
  }

  lemma InvReachable(limit: nat, s: State)
    requires Reachable(limit, s)
    ensures Inv(s)
  {
    var run :| IsRun(limit, run) && run[|run| - 1] == s;
    InvAlways(limit, run, |run| - 1);
  }
}
