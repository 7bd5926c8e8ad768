/** The order service's database transactions, and the idempotency guard around the business handler.  Transactions do
    not nest: one begun inside another commits on its own. */
module PgStorage {
  import opened OutboxModel
  import opened OutboxInvariant

  datatype Tables = Tables(orders: map<nat, Status>, rows: map<nat, Row>, processed: set<string>)

  /** A statement; inside a transaction its effect waits for the commit. */
  datatype Statement =
    | ChangeOrder(tx: Intent)
    | InsertOutbox(id: nat, row: Row)
    | InsertProcessed(key: string)

  function Effect(t: Tables, s: Statement): Tables {
    match s
    case ChangeOrder(tx) => t.(orders := Written(t.orders, tx))
    case InsertOutbox(id, row) => t.(rows := t.rows[id := row])
    case InsertProcessed(key) => t.(processed := t.processed + {key})
  }

  function Effects(t: Tables, statements: seq<Statement>): Tables {
    if statements == [] then t
    else Effect(Effects(t, statements[..|statements| - 1]), statements[|statements| - 1])
  }

  /** The two rows a write transaction is about: the order and its message. */
  function Pair(tx: Intent, id: nat, created: int): seq<Statement> {
    [ChangeOrder(tx), InsertOutbox(id, Row(KindOf(tx), tx.order, created, false, 0))]
  }

  lemma PairEffect(t: Tables, tx: Intent, id: nat, created: int)
    ensures Effects(t, Pair(tx, id, created)) ==
            Tables(Written(t.orders, tx), t.rows[id := Row(KindOf(tx), tx.order, created, false, 0)], t.processed)
  {
    var pair := Pair(tx, id, created);
    assert pair[..1] == [pair[0]] && pair[..1][..0] == [];
    assert Effects(t, pair[..1]) == Effect(t, pair[0]);
  }

  /** Committing both statements at once is what the outbox protocol calls the commit of a writer. */
  lemma PairIsWriterCommit(limit: nat, s: State, w: nat, processed: set<string>)
    requires Enabled(limit, s, CommitWrite(w)) && Inv(s)
    ensures var writer := s.writers[w]; var t := Apply(limit, s, CommitWrite(w));
            Effects(Tables(s.orders, s.rows, processed), Pair(writer.tx, writer.id, writer.row.created)) ==
            Tables(t.orders, t.rows, processed)
  {
    var writer := s.writers[w];
    assert WriterOk(s.rows, s.orders, s.nextId, writer);
    PairEffect(Tables(s.orders, s.rows, processed), writer.tx, writer.id, writer.row.created);
  }

  predicate Announces(row: Row, order: nat, status: Status) {
    row.order == order && row.kind == if status.Cancelled? then OrderCancelled else OrderConfirmed
  }

  /** Every order that is no longer pending has the event of its status in the outbox. */
  ghost predicate EventsOk(orders: map<nat, Status>, rows: map<nat, Row>) {
    forall order :: order in orders && !orders[order].Pending? ==>
      exists id :: id in rows && Announces(rows[id], order, orders[order])
  }

  class Tx {
    var statements: seq<Statement>

    constructor ()
      ensures statements == []
    {
      statements := [];
    }
  }

  lemma CommandsKept(t: Tables, intent: Intent, id: nat, created: int)
    requires OrdersOk(t.rows, t.orders) && id !in t.rows && (intent.NewOrder? ==> intent.order !in t.orders)
    ensures OrdersOk(t.rows[id := Row(KindOf(intent), intent.order, created, false, 0)], Written(t.orders, intent))
  {
    var rows := t.rows[id := Row(KindOf(intent), intent.order, created, false, 0)];
    forall order | order in Written(t.orders, intent)
      ensures exists i :: i in rows && Commands(rows[i], order)
    {
      if order in t.orders {
        var i :| i in t.rows && Commands(t.rows[i], order);
        assert rows[i] == t.rows[i];
      } else {
        assert Commands(rows[id], order);
      }
    }
  }

  lemma EventsKept(t: Tables, intent: Intent, id: nat, created: int)
    requires EventsOk(t.orders, t.rows) && id !in t.rows
    ensures EventsOk(Written(t.orders, intent), t.rows[id := Row(KindOf(intent), intent.order, created, false, 0)])
  {
    var orders := Written(t.orders, intent);
    var rows := t.rows[id := Row(KindOf(intent), intent.order, created, false, 0)];
    forall order | order in orders && !orders[order].Pending?
      ensures exists i :: i in rows && Announces(rows[i], order, orders[order])
    {
      if order in t.orders && orders[order] == t.orders[order] {
        var i :| i in t.rows && Announces(t.rows[i], order, t.orders[order]);
        assert rows[i] == t.rows[i];
      } else {
        assert Announces(rows[id], order, orders[order]);
      }
    }
  }

  /** A committed pair keeps the tables consistent. */
  lemma WriteKeeps(t: Tables, intent: Intent, id: nat, created: int)
    requires OrdersOk(t.rows, t.orders) && EventsOk(t.orders, t.rows) && id !in t.rows
    requires intent.NewOrder? ==> intent.order !in t.orders
    ensures var u := Effects(t, Pair(intent, id, created)); OrdersOk(u.rows, u.orders) && EventsOk(u.orders, u.rows)
  {
    PairEffect(t, intent, id, created);
    CommandsKept(t, intent, id, created);
    EventsKept(t, intent, id, created);
  }

  /** What a write leaves in the orders table: a new order is pending, a status is set on the one order it is for if
      that exists, and every other order stays as it is. */
  ghost predicate OrderSet(before: map<nat, Status>, after: map<nat, Status>, intent: Intent) {
    match intent
    case NewOrder(order) =>
      && order !in before && after.Keys == before.Keys + {order} && after[order] == Pending
      && forall other :: other in before ==> after[other] == before[other]
    case SetStatus(order, status) =>
      && after.Keys == before.Keys && (order in before ==> after[order] == status)
      && forall other :: other in before && other != order ==> after[other] == before[other]
  }

  /** And in the outbox: one more row, of this order, unpublished, and of the kind that says what was done. */
  ghost predicate RowAdded(before: map<nat, Row>, after: map<nat, Row>, intent: Intent, created: int) {
    exists id :: id !in before && after.Keys == before.Keys + {id}
      && (forall other :: other in before ==> after[other] == before[other])
      && after[id].order == intent.order && after[id].created == created
      && !after[id].published && after[id].retries == 0
      && after[id].kind == if intent.NewOrder? then CreateOrder
                           else if intent.status == Cancelled then OrderCancelled else OrderConfirmed
  }

  lemma PairSets(t: Tables, intent: Intent, id: nat, created: int)
    requires id !in t.rows && (intent.NewOrder? ==> intent.order !in t.orders)
    ensures var u := Effects(t, Pair(intent, id, created));
            OrderSet(t.orders, u.orders, intent) && RowAdded(t.rows, u.rows, intent, created)
  {
    PairEffect(t, intent, id, created);
    var rows := Effects(t, Pair(intent, id, created)).rows;
    assert id !in t.rows && rows.Keys == t.rows.Keys + {id} && rows[id].created == created;
  }

  /** What the database answers to the four steps of a write: begin, change the order, insert the message, commit. */
  datatype WriteAnswers = WriteAnswers(begins: bool, changes: bool, inserts: bool, commits: bool)

  /** And to those of a guard: begin, insert the key, commit. */
  datatype GuardAnswers = GuardAnswers(begins: bool, inserts: bool, commits: bool)

  /** What the business handler does: whether it reaches the confirmation, how the database answers that, and whether
      without a confirmation it returns no error. */
  datatype Service = Service(reaches: bool, net: WriteAnswers, handled: bool)

  class Storage {
    var tables: Tables
    var nextId: nat

    ghost predicate Valid()
      reads this
    {
      && OrdersOk(tables.rows, tables.orders)
      && EventsOk(tables.orders, tables.rows)
      && (forall id :: id in tables.rows ==> id < nextId)
    }

    constructor ()
      ensures Valid() && tables == Tables(map[], map[], {})
    {
      tables, nextId := Tables(map[], map[], {}), 0;
    }

    /** Run a statement in the transaction of the context, or by itself if there is none; `up` says whether the database
        accepts it.  Inserting an order that exists always fails. */
    method Exec(ctx: Tx?, s: Statement, up: bool) returns (ok: bool)
      modifies `tables, ctx
      ensures ok <==> up && !(s.ChangeOrder? && s.tx.NewOrder? && s.tx.order in old(tables).orders)
      ensures ctx == null ==> tables == if ok then Effect(old(tables), s) else old(tables)
      ensures ctx != null ==> tables == old(tables)
      ensures ctx != null ==> ctx.statements == if ok then old(ctx.statements) + [s] else old(ctx.statements)
    {
      ok := up;
      if s.ChangeOrder? && s.tx.NewOrder? && s.tx.order in tables.orders {
        ok := false;
      }
      if ok {
        if ctx == null {
          tables := Effect(tables, s);
        } else {
          ctx.statements := ctx.statements + [s];
        }
      }
    }

    method Begin(up: bool) returns (tx: Tx?)
      ensures tx != null <==> up
      ensures tx != null ==> fresh(tx) && tx.statements == []
    {
      tx := null;
      if up {
        tx := new Tx();
      }
    }

    method Commit(tx: Tx, up: bool) returns (ok: bool)
      modifies `tables
      ensures ok == up && tables == if ok then Effects(old(tables), tx.statements) else old(tables)
    {
      ok := up;
      if ok {
        tables := Effects(tables, tx.statements);
      }
    }

    /** The id is taken from the sequence even if the transaction aborts later. */
    method InsertOutboxMsg(ctx: Tx, intent: Intent, created: int, up: bool) returns (ok: bool)
      modifies `tables, `nextId, ctx
      ensures ok == up && tables == old(tables) && nextId == old(nextId) + 1
      ensures ok ==> ctx.statements == old(ctx.statements) +
                       [InsertOutbox(old(nextId), Row(KindOf(intent), intent.order, created, false, 0))]
    {
      var id := nextId;
      nextId := nextId + 1;
      ok := Exec(ctx, InsertOutbox(id, Row(KindOf(intent), intent.order, created, false, 0)), up);
    }

    /** An order and its message are written together or not at all: a new order with its command, or a status with its
        event.  It succeeds exactly when every step does and a new order is really new; the context's own transaction is
        not used. */
    method WriteTx(ctx: Tx?, intent: Intent, created: int, net: WriteAnswers) returns (ok: bool)
      requires Valid()
      modifies `tables, `nextId
      ensures Valid()
      ensures ok <==> net.begins && net.changes && net.inserts && net.commits
                      && !(intent.NewOrder? && intent.order in old(tables.orders))
      ensures !ok ==> tables == old(tables)
      ensures ok ==> OrderSet(old(tables.orders), tables.orders, intent) && tables.processed == old(tables.processed)
      ensures ok ==> RowAdded(old(tables.rows), tables.rows, intent, created)
    {
      ghost var before, id := tables, nextId;
      var tx := Begin(net.begins);
      if tx == null {
        return false;
      }
      ok := Exec(tx, ChangeOrder(intent), net.changes);
      if !ok {
        return;
      }
      ok := InsertOutboxMsg(tx, intent, created, net.inserts);
      if !ok {
        return;
      }
      ok := Commit(tx, net.commits);
      if ok {
        assert tx.statements == Pair(intent, id, created);
        PairEffect(before, intent, id, created);
        PairSets(before, intent, id, created);
        WriteKeeps(before, intent, id, created);
      }
    }

    /** The insert of the idempotency key: an existing key is not an error. */
    method TryInsertProcessedEvent(ctx: Tx, key: string, up: bool) returns (ok: bool, isNew: bool)
      modifies `tables, ctx
      ensures tables == old(tables) && ok == up
      ensures ok ==> isNew == (key !in tables.processed)
      ensures ok ==> ctx.statements == old(ctx.statements) + if isNew then [InsertProcessed(key)] else []
    {
      isNew := key !in tables.processed;
      if isNew {
        ok := Exec(ctx, InsertProcessed(key), up);
      } else {
        ok := up;
      }
    }

    /** The business handler as far as the database sees it: it may reach the confirmation of the order, and it returns
        no error if that was committed. */
    method Business(ctx: Tx, order: nat, created: int, does: Service) returns (ok: bool, confirmed: bool)
      requires Valid()
      modifies `tables, `nextId
      ensures Valid()
      ensures confirmed <==>
                does.reaches && does.net.begins && does.net.changes && does.net.inserts && does.net.commits
      ensures ok <==> confirmed || does.handled
      ensures !confirmed ==> tables == old(tables)
      ensures confirmed ==> OrderSet(old(tables.orders), tables.orders, SetStatus(order, Confirmed))
      ensures confirmed ==> RowAdded(old(tables.rows), tables.rows, SetStatus(order, Confirmed), created)
      ensures tables.processed == old(tables.processed)
    {
      confirmed := false;
      if does.reaches {
        confirmed := WriteTx(ctx, SetStatus(order, Confirmed), created, does.net);
      }
      ok := confirmed || does.handled;
    }

    /** One guarded delivery.  The handler runs exactly when the transaction begins and the key is new; the key is
        stored exactly when that run is acknowledged; and a confirmation stays even if the transaction that holds
        the key fails. */
    method WithIdempotency(key: string, order: nat, created: int, guard: GuardAnswers, does: Service)
      returns (ok: bool, ran: bool, confirmed: bool)
      requires Valid()
      modifies `tables, `nextId
      ensures Valid()
      ensures ran <==> guard.begins && guard.inserts && key !in old(tables.processed)
      ensures confirmed <==>
                ran && does.reaches && does.net.begins && does.net.changes && does.net.inserts && does.net.commits
      ensures ok <==> guard.begins && guard.inserts && guard.commits && (ran ==> confirmed || does.handled)
      ensures tables.processed == if ok && ran then old(tables.processed) + {key} else old(tables.processed)
      ensures tables.orders.Keys == old(tables.orders.Keys)
      ensures confirmed && order in tables.orders ==> tables.orders[order] == Confirmed
      ensures forall other :: other in tables.orders && !(confirmed && other == order) ==>
                tables.orders[other] == old(tables.orders)[other]
      ensures if confirmed then RowAdded(old(tables.rows), tables.rows, SetStatus(order, Confirmed), created)
              else tables.rows == old(tables.rows)
    {
      ran, confirmed := false, false;
      var tx := Begin(guard.begins);
      if tx == null {
        return false, ran, confirmed;
      }
      var isNew;
      ok, isNew := TryInsertProcessedEvent(tx, key, guard.inserts);
      if !ok {
        return;
      }
      if isNew {
        ran := true;
        ok, confirmed := Business(tx, order, created, does);
        if !ok {
          return;
        }
      }
      ghost var inner := tables;
      assert tx.statements == if isNew then [InsertProcessed(key)] else [];
      ok := Commit(tx, guard.commits);
      assert ok && isNew ==> Effects(inner, tx.statements[..0]) == inner;
    }
  }
}
