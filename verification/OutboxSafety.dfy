/** What the outbox promises over every run, whatever transactions abort. */
module OutboxSafety {
  import opened OutboxModel
  import opened OutboxInvariant

  /** Ack conservation: every publish that returned without an error is accounted for by the published row, by a
      transaction that aborted after it, or by one that is still open. */
  lemma AckConservation(limit: nat, s: State, id: nat)
    requires Reachable(limit, s)
    ensures s.acks[id] == IsPublished(s.rows, id) + s.aborted[id] + OpenAcks(s.relays, id)
  {
    InvReachable(limit, s);
  }

  lemma {:induction false} UnlockedHasNoOpenAcks(rows: map<nat, Row>, relays: seq<Relay>, id: nat)
    requires forall r :: 0 <= r < |relays| ==> RelayOk(rows, relays[r])
    requires !(id in rows && Eligible(rows[id]))
    ensures OpenAcks(relays, id) == 0
  {
    if relays != [] {
      var relay := relays[|relays| - 1];
      UnlockedHasNoOpenAcks(rows, relays[..|relays| - 1], id);
      assert RelayOk(rows, relay);
      if relay.InTx? {
        assert id !in relay.batch;
      }
    }
  }

  /** At least once, and exactly once unless a transaction aborted after publishing the row. */
  lemma PublishedWasAcked(limit: nat, s: State, id: nat)
    requires Reachable(limit, s) && id in s.rows && s.rows[id].published
    ensures s.acks[id] == 1 + s.aborted[id]
  {
    InvReachable(limit, s);
    UnlockedHasNoOpenAcks(s.rows, s.relays, id);
  }

  /** A parked row was acknowledged only by transactions that aborted. */
  lemma ParkedAcksAborted(limit: nat, s: State, id: nat)
    requires Reachable(limit, s) && id in s.rows && !s.rows[id].published && s.rows[id].retries == 5
    ensures s.acks[id] == s.aborted[id]
  {
    InvReachable(limit, s);
    UnlockedHasNoOpenAcks(s.rows, s.relays, id);
  }

  /** Two relays never work on the same row at the same time. */
  lemma NoConcurrentPublish(limit: nat, s: State, r: nat, q: nat)
    requires Reachable(limit, s) && r < |s.relays| && q < |s.relays| && s.relays[r].InTx? && s.relays[q].InTx?
    requires exists id :: id in s.relays[r].batch && id in s.relays[q].batch
    ensures r == q
  {
    InvReachable(limit, s);
  }

  /** How a row may change in one step: not at all, from pending to published, or by one more failed attempt. */
  ghost predicate RowStep(before: Row, after: Row) {
    || after == before
    || (!before.published && before.retries < 5 && after == before.(published := true))
    || (!before.published && before.retries < 5 && after == before.(retries := before.retries + 1))
  }

  lemma CommittedRow(rows: map<nat, Row>, relay: Relay, id: nat)
    requires RelayOk(rows, relay) && relay.InTx? && id in rows
    ensures RowStep(rows[id], (rows + relay.view)[id])
  {
    if id in relay.view {
      var i :| 0 <= i < relay.pos && relay.batch[i] == id;
      assert Outcome(rows[id], relay.view[id], relay.acked[id]);
    }
  }

  lemma RowStepKept(limit: nat, s: State, a: Action, id: nat)
    requires Inv(s) && Enabled(limit, s, a) && id in s.rows
    ensures id in Apply(limit, s, a).rows && RowStep(s.rows[id], Apply(limit, s, a).rows[id])
    ensures !Eligible(s.rows[id]) ==> Apply(limit, s, a).rows[id] == s.rows[id]
  {
    if a.Commit? {
      CommittedRow(s.rows, s.relays[a.r], id);
    } else if a.CommitWrite? {
      assert WriterOk(s.rows, s.orders, s.nextId, s.writers[a.w]);
    }
  }

  /** The life of a row: rows are never lost, published and parked rows never change again, and a pending row leaves
      that state only by a committed publish or by its fifth failed attempt. */
  lemma RowLife(limit: nat, s: State, a: Action, id: nat)
    requires Reachable(limit, s) && Enabled(limit, s, a) && id in s.rows
    ensures id in Apply(limit, s, a).rows && RowStep(s.rows[id], Apply(limit, s, a).rows[id])
    ensures s.rows[id].published || s.rows[id].retries >= 5 ==> Apply(limit, s, a).rows[id] == s.rows[id]
  {
    InvReachable(limit, s);
    RowStepKept(limit, s, a, id);
  }

  /** The two final states of a row; any other one is still waiting. */
  predicate Published(row: Row) { row.published }
  predicate Parked(row: Row) { !row.published && row.retries == 5 }

  /** No created order loses its command: its one command row is published, waiting, or parked after exactly five
      failed attempts. */
  lemma OrderKeepsItsCommand(limit: nat, s: State, order: nat) returns (id: nat)
    requires Reachable(limit, s) && order in s.orders
    ensures id in s.rows && Commands(s.rows[id], order)
    ensures forall other :: other in s.rows && Commands(s.rows[other], order) ==> other == id
    ensures Published(s.rows[id]) || Parked(s.rows[id]) || (!s.rows[id].published && s.rows[id].retries < 5)
    ensures Published(s.rows[id]) ==> s.acks[id] >= 1
  {
    InvReachable(limit, s);
    id :| id in s.rows && Commands(s.rows[id], order);
    if s.rows[id].published {
      PublishedWasAcked(limit, s, id);
    }
  }

  lemma NewOrderAbsent(limit: nat, s: State, w: nat)
    requires Reachable(limit, s) && Enabled(limit, s, CommitWrite(w)) && s.writers[w].tx.NewOrder?
    ensures s.writers[w].tx.order !in s.orders
  {
    InvReachable(limit, s);
    assert WriterOk(s.rows, s.orders, s.nextId, s.writers[w]);
    assert WritesOrder(s.writers[w], s.writers[w].tx.order);
  }

  /** What a writer's commit does to the orders: a new one is added as pending; a status is set on the one order it
      is for, if that exists; every other order stays as it is. */
  lemma CommitSetsOrder(limit: nat, s: State, w: nat)
    requires Reachable(limit, s) && Enabled(limit, s, CommitWrite(w))
    ensures var after := Apply(limit, s, CommitWrite(w)).orders;
            match s.writers[w].tx
            case NewOrder(order) =>
              && order !in s.orders && after.Keys == s.orders.Keys + {order} && after[order] == Pending
              && forall other :: other in s.orders ==> after[other] == s.orders[other]
            case SetStatus(order, status) =>
              && after.Keys == s.orders.Keys && (order in s.orders ==> after[order] == status)
              && forall other :: other in s.orders && other != order ==> after[other] == s.orders[other]
  {
    if s.writers[w].tx.NewOrder? {
      NewOrderAbsent(limit, s, w);
    }
  }

  /** And to the outbox: one new row of the order, unpublished and without a failure, of the kind that says what was
      done. */
  lemma CommitAddsRow(limit: nat, s: State, w: nat) returns (id: nat)
    requires Reachable(limit, s) && Enabled(limit, s, CommitWrite(w))
    ensures id !in s.rows && Apply(limit, s, CommitWrite(w)).rows.Keys == s.rows.Keys + {id}
    ensures forall other :: other in s.rows ==> Apply(limit, s, CommitWrite(w)).rows[other] == s.rows[other]
    ensures var row := Apply(limit, s, CommitWrite(w)).rows[id];
            && row.order == s.writers[w].tx.order && !row.published && row.retries == 0
            && match s.writers[w].tx
               case NewOrder(_) => row.kind == CreateOrder
               case SetStatus(_, status) => row.kind == if status == Cancelled then OrderCancelled else OrderConfirmed
  {
    InvReachable(limit, s);
    id := s.writers[w].id;
    assert WriterOk(s.rows, s.orders, s.nextId, s.writers[w]);
  }

  /** Nothing else touches an order. */
  lemma OnlyCommitsChangeOrders(limit: nat, s: State, a: Action)
    requires Enabled(limit, s, a) && Apply(limit, s, a).orders != s.orders
    ensures a.CommitWrite?
  {
  }

  /** A command row never exists without its order: both are inserted by one transaction. */
  lemma CommandHasItsOrder(limit: nat, s: State, id: nat)
    requires Reachable(limit, s) && id in s.rows && s.rows[id].kind.CreateOrder?
    ensures s.rows[id].order in s.orders
  {
    InvReachable(limit, s);
    assert Commands(s.rows[id], s.rows[id].order);
  }
}
