/** One relay that has the outbox to itself: the batch loop, the drain loop around it, and why draining ends. */
module OutboxRelay {
  import opened OutboxModel
  import opened OutboxInvariant

  /** How many more failed attempts a row can take. */
  function Attempts(rows: map<nat, Row>, id: nat): nat {
    if id in rows && Eligible(rows[id]) then MAX_RETRIES - rows[id].retries else 0
  }

  /** The failed attempts left in all rows below `n`. */
  function Budget(rows: map<nat, Row>, n: nat): nat {
    if n == 0 then 0 else Budget(rows, n - 1) + Attempts(rows, n - 1)
  }

  /** The number of pending rows below `n`. */
  function PendingRows(rows: map<nat, Row>, n: nat): nat {
    if n == 0 then 0
    else PendingRows(rows, n - 1) + if n - 1 in rows && !rows[n - 1].published && rows[n - 1].retries < 5 then 1 else 0
  }

  lemma {:induction false} BudgetBound(rows: map<nat, Row>, n: nat)
    ensures Budget(rows, n) <= 5 * PendingRows(rows, n)
  {
    if n > 0 {
      BudgetBound(rows, n - 1);
    }
  }

  /** The ids of the batch below `n`. */
  function InBatch(batch: seq<nat>, n: nat): nat {
    if n == 0 then 0 else InBatch(batch, n - 1) + if n - 1 in batch then 1 else 0
  }

  lemma {:induction false} InBatchAppend(batch: seq<nat>, id: nat, n: nat)
    requires id !in batch
    ensures InBatch(batch + [id], n) == InBatch(batch, n) + if id < n then 1 else 0
  {
    if n > 0 {
      InBatchAppend(batch, id, n - 1);
    }
  }

  lemma {:induction false} Nothing(n: nat)
    ensures InBatch([], n) == 0
  {
    if n > 0 {
      Nothing(n - 1);
    }
  }

  lemma {:induction false} InBatchCounts(batch: seq<nat>, n: nat)
    requires forall i :: 0 <= i < |batch| ==> batch[i] < n
    requires forall i, j :: 0 <= i < j < |batch| ==> batch[i] != batch[j]
    ensures InBatch(batch, n) == |batch|
    decreases |batch|
  {
    if batch == [] {
      Nothing(n);
    } else {
      var k := |batch| - 1;
      assert batch == batch[..k] + [batch[k]];
      InBatchCounts(batch[..k], n);
      InBatchAppend(batch[..k], batch[k], n);
    }
  }

  /** The effect of a committed batch: its rows were pending, and each is now published or has failed once more. */
  ghost predicate BatchDone(before: map<nat, Row>, after: map<nat, Row>, batch: seq<nat>) {
    && after.Keys == before.Keys
    && (forall id :: id in batch ==> id in before && Eligible(before[id]))
    && (forall id :: id in before && id !in batch ==> after[id] == before[id])
    && (forall id :: id in before && id in batch ==>
          after[id] == before[id].(published := true) || after[id] == before[id].(retries := before[id].retries + 1))
  }

  /** Every message of a committed batch uses up at least one attempt. */
  lemma {:induction false} BatchSpends(before: map<nat, Row>, after: map<nat, Row>, batch: seq<nat>, n: nat)
    requires BatchDone(before, after, batch)
    ensures Budget(after, n) + InBatch(batch, n) <= Budget(before, n)
  {
    if n > 0 {
      BatchSpends(before, after, batch, n - 1);
      assert n - 1 in after <==> n - 1 in before;
    }
  }

  /** What was paid so far, plus the batch, is still covered by the attempts there were. */
  lemma BatchPaid(before: map<nat, Row>, after: map<nat, Row>, batch: seq<nat>, n: nat, paid: nat, total: nat)
    requires BatchDone(before, after, batch) && (forall id :: id in before ==> id < n)
    requires forall i, j :: 0 <= i < j < |batch| ==> batch[i] != batch[j]
    requires paid + Budget(before, n) <= total
    ensures paid + |batch| + Budget(after, n) <= total && Budget(after, n) + |batch| <= Budget(before, n)
  {
    BatchSpends(before, after, batch, n);
    assert forall i :: 0 <= i < |batch| ==> batch[i] in batch;
    InBatchCounts(batch, n);
  }

  lemma OneMore(full: nat, size: nat)
    ensures (full + 1) * size == full * size + size
  {
  }

  /** The acknowledged publishes account for the published rows and the aborted transactions. */
  ghost predicate Accounted(rows: map<nat, Row>, acks: multiset<nat>, aborted: multiset<nat>) {
    forall id :: acks[id] == IsPublished(rows, id) + aborted[id]
  }

  /** A batch was acknowledged once for each of its rows that is now published. */
  ghost predicate AcksAdded(before: multiset<nat>, after: multiset<nat>, rows: map<nat, Row>, batch: seq<nat>) {
    forall id :: after[id] == before[id] + if id in batch && id in rows && rows[id].published then 1 else 0
  }

  /** A transaction has one acknowledged publish for each row it has marked as published. */
  ghost predicate AckedOnce(tx: map<nat, Row>, batch: seq<nat>, mine: multiset<nat>) {
    forall id :: mine[id] == if id in batch && id in tx && tx[id].published then 1 else 0
  }

  lemma BatchCounts(rows: map<nat, Row>, tx: map<nat, Row>, batch: seq<nat>, acks: multiset<nat>, mine: multiset<nat>,
                    aborted: multiset<nat>)
    requires Accounted(rows, acks, aborted) && BatchDone(rows, tx, batch) && AckedOnce(tx, batch, mine)
    ensures Accounted(tx, acks + mine, aborted) && AcksAdded(acks, acks + mine, tx, batch)
  {
  }

  /** What the world answers to one batch: whether beginning its transaction, the query, each publish, each update of a
      row and the commit succeed. */
  datatype Answers =
    Answers(begins: bool, queries: bool, delivers: nat -> bool, updates: nat -> bool, commits: bool)

  /** All rows that are still pending were in the batch, and their publish failed. */
  ghost predicate JustFailed(rows: map<nat, Row>, acks: multiset<nat>, batch: seq<nat>, before: multiset<nat>,
                             net: Answers) {
    forall id :: id in rows && !rows[id].published && rows[id].retries < 5 ==>
      id in batch && rows[id].retries >= 1 && acks[id] == before[id] && !net.delivers(id)
  }

  /** Each message of the batch is published if its publish was acknowledged, and has failed once more if not. */
  ghost predicate AsAnswered(before: map<nat, Row>, after: map<nat, Row>, batch: seq<nat>, net: Answers) {
    forall id :: id in before && id in after && id in batch ==>
      after[id] == if net.delivers(id) then before[id].(published := true)
                   else before[id].(retries := before[id].retries + 1)
  }

  /** The transaction has been through `batch`. */
  ghost predicate Tried(rows: map<nat, Row>, tx: map<nat, Row>, batch: seq<nat>, mine: multiset<nat>, net: Answers) {
    BatchDone(rows, tx, batch) && AckedOnce(tx, batch, mine) && AsAnswered(rows, tx, batch, net)
  }

  lemma MessageDone(rows: map<nat, Row>, tx: map<nat, Row>, batch: seq<nat>, id: nat, mine: multiset<nat>, net: Answers)
    requires Tried(rows, tx, batch, mine, net)
    requires id !in batch && id in rows && Eligible(rows[id])
    ensures Tried(rows, tx[id := Marked(tx[id], net.delivers(id))], batch + [id],
                  if net.delivers(id) then mine + multiset{id} else mine, net)
  {
  }

  lemma NothingTried(rows: map<nat, Row>, net: Answers)
    ensures Tried(rows, rows, [], multiset{}, net)
  {
  }

  /** The transaction's copy after one more message. */
  lemma NextTried(rows: map<nat, Row>, tx: map<nat, Row>, msgs: seq<nat>, i: nat, mine: multiset<nat>, net: Answers)
    requires i < |msgs| && Tried(rows, tx, msgs[..i], mine, net) && msgs[i] in rows && Eligible(rows[msgs[i]])
    requires forall j, k :: 0 <= j < k < |msgs| ==> msgs[j] != msgs[k]
    ensures msgs[i] in tx
    ensures Tried(rows, tx[msgs[i] := Marked(tx[msgs[i]], net.delivers(msgs[i]))], msgs[..i + 1],
                  if net.delivers(msgs[i]) then mine + multiset{msgs[i]} else mine, net)
  {
    assert msgs[..i + 1] == msgs[..i] + [msgs[i]];
    MessageDone(rows, tx, msgs[..i], msgs[i], mine, net);
  }

  lemma {:induction false} OldestExists(rows: map<nat, Row>, ids: set<nat>)
    requires ids != {} && ids <= rows.Keys
    ensures exists id :: id in ids && forall other :: other in ids ==> rows[id].created <= rows[other].created
  {
    var first :| first in ids;
    if ids != {first} {
      OldestExists(rows, ids - {first});
      var id :| id in ids - {first} &&
                forall other :: other in ids - {first} ==> rows[id].created <= rows[other].created;
      var oldest := if rows[first].created <= rows[id].created then first else id;
      assert forall other :: other in ids ==> rows[oldest].created <= rows[other].created;
    }
  }

  /** What the batch query returns: the oldest pending rows, each once and in their order, at most `limit`; a pending
      row is left out only if the batch is full and none of its rows is younger. */
  ghost predicate OldestFirst(rows: map<nat, Row>, limit: nat, batch: seq<nat>) {
    && |batch| <= limit
    && (forall i :: 0 <= i < |batch| ==>
          batch[i] in rows && !rows[batch[i]].published && rows[batch[i]].retries < 5)
    && (forall i, j :: 0 <= i < j < |batch| ==> batch[i] != batch[j])
    && (forall i, j :: 0 <= i < j < |batch| ==> rows[batch[i]].created <= rows[batch[j]].created)
    && (forall id :: id in rows && !rows[id].published && rows[id].retries < 5 && id !in batch ==>
          |batch| == limit && forall i :: 0 <= i < |batch| ==> rows[batch[i]].created <= rows[id].created)
  }

  /** The oldest pending rows have been picked, `rest` are the other ones. */
  ghost predicate Picked(rows: map<nat, Row>, batch: seq<nat>, rest: set<nat>) {
    && (forall i :: 0 <= i < |batch| ==> batch[i] in rows && Eligible(rows[batch[i]]) && batch[i] !in rest)
    && (forall i, j :: 0 <= i < j < |batch| ==> batch[i] != batch[j])
    && (forall i, j :: 0 <= i < j < |batch| ==> rows[batch[i]].created <= rows[batch[j]].created)
    && (forall id :: id in rest ==> id in rows && Eligible(rows[id]))
    && (forall id :: id in rows && Eligible(rows[id]) && id !in batch ==> id in rest)
    && (forall id, i :: id in rest && 0 <= i < |batch| ==> rows[batch[i]].created <= rows[id].created)
  }

  lemma PickOldest(rows: map<nat, Row>, batch: seq<nat>, rest: set<nat>, id: nat)
    requires Picked(rows, batch, rest) && id in rest
    requires forall other :: other in rest ==> rows[id].created <= rows[other].created
    ensures Picked(rows, batch + [id], rest - {id})
  {
    assert forall other :: other in batch + [id] <==> other in batch || other == id;
  }

  lemma PickedIsOldest(rows: map<nat, Row>, limit: nat, batch: seq<nat>, rest: set<nat>)
    requires Picked(rows, batch, rest) && |batch| <= limit && (rest == {} || |batch| == limit)
    ensures OldestFirst(rows, limit, batch)
  {
  }

  class SoleRelay {
    const batchSize: nat
    var rows: map<nat, Row>
    var nextId: nat
    var acks: multiset<nat>
    ghost var aborted: multiset<nat>

    /** Ids are below the sequence, and acknowledged publishes are accounted for. */
    ghost predicate Valid()
      reads this
    {
      && (forall id :: id in rows ==> id < nextId)
      && Accounted(rows, acks, aborted)
    }

    constructor (batchSize: nat)
      ensures Valid() && this.batchSize == batchSize && rows == map[]
    {
      this.batchSize := batchSize;
      rows, nextId, acks, aborted := map[], 0, multiset{}, multiset{};
    }

    /** The batch query. */
    method GetBatch(limit: nat) returns (batch: seq<nat>)
      ensures OldestFirst(rows, limit, batch)
    {
      var rest := set id | id in rows && Eligible(rows[id]);
      batch := [];
      while |batch| < limit && rest != {}
        invariant |batch| <= limit && Picked(rows, batch, rest)
        decreases rest
      {
        OldestExists(rows, rest);
        var id :| id in rest && forall other :: other in rest ==> rows[id].created <= rows[other].created;
        PickOldest(rows, batch, rest, id);
        batch := batch + [id];
        rest := rest - {id};
      }
      PickedIsOldest(rows, limit, batch, rest);
    }

    /** Publish the messages of a batch and mark each of them, or count a failed attempt, in the transaction's copy
        `tx` of the rows.  Any statement may fail and end the transaction. */
    method PublishAll(msgs: seq<nat>, net: Answers) returns (tx: map<nat, Row>, ok: bool, ghost mine: multiset<nat>)
      requires forall i :: 0 <= i < |msgs| ==> msgs[i] in rows && Eligible(rows[msgs[i]])
      requires forall i, j :: 0 <= i < j < |msgs| ==> msgs[i] != msgs[j]
      modifies `acks
      ensures acks == old(acks) + mine
      ensures ok <==> forall i :: 0 <= i < |msgs| ==> net.updates(msgs[i])
      ensures ok ==> Tried(rows, tx, msgs, mine, net)
    {
      tx, ok, mine := rows, true, multiset{};
      NothingTried(rows, net);
      var i := 0;
      while i < |msgs|
        invariant 0 <= i <= |msgs| && ok && forall j :: 0 <= j < i ==> net.updates(msgs[j])
        invariant acks == old(acks) + mine
        invariant Tried(rows, tx, msgs[..i], mine, net)
      {
        var id := msgs[i];
        NextTried(rows, tx, msgs, i, mine, net);
        var delivered := net.delivers(id);
        if delivered {
          acks := acks + multiset{id};
          mine := mine + multiset{id};
        }
        if !net.updates(id) {
          ok := false;
          return;
        }
        tx := tx[id := Marked(tx[id], delivered)];
        i := i + 1;
      }
      assert msgs[..i] == msgs;
    }

    /** One batch in one transaction.  Beginning, any statement and the commit may fail; then no row changes, but what
        was published stays published. */
    method ProcessBatch(net: Answers) returns (processed: nat, failed: bool, ghost batch: seq<nat>)
      requires Valid()
      modifies `rows, `acks, `aborted
      ensures Valid() && old(acks) <= acks && old(aborted) <= aborted
      ensures processed == |batch|
      ensures if net.begins && net.queries then OldestFirst(old(rows), batchSize, batch) else batch == []
      ensures !failed <==>
                net.begins && net.queries && net.commits && forall i :: 0 <= i < |batch| ==> net.updates(batch[i])
      ensures failed ==> rows == old(rows)
      ensures !failed ==> BatchDone(old(rows), rows, batch) && AsAnswered(old(rows), rows, batch, net)
      ensures !failed ==> AcksAdded(old(acks), acks, rows, batch) && aborted == old(aborted)
    {
      if !net.begins || !net.queries {
        return 0, true, [];
      }
      var msgs := GetBatch(batchSize);
      var tx, ok, mine := PublishAll(msgs, net);
      if !ok || !net.commits {
        aborted := aborted + mine;
        return |msgs|, true, msgs;
      }
      BatchCounts(rows, tx, msgs, old(acks), mine, aborted);
      rows := tx;
      return |msgs|, false, msgs;
    }

    /** A batch as the drain loop sees it: what it costs, and what is left if it was not full. */
    method NextBatch(net: Answers, ghost paid: nat, ghost total: nat)
      returns (processed: nat, failed: bool, ghost batch: seq<nat>)
      requires Valid() && paid + Budget(rows, nextId) <= total
      modifies `rows, `acks, `aborted
      ensures Valid() && rows.Keys == old(rows).Keys && (failed || batchSize == 0 ==> rows == old(rows))
      ensures !failed ==> processed == |batch| <= batchSize && paid + |batch| + Budget(rows, nextId) <= total
      ensures failed ==> paid + Budget(rows, nextId) <= total
      ensures !failed && processed < batchSize ==> JustFailed(rows, acks, batch, old(acks), net)
      ensures failed ==> !net.begins || !net.queries || !net.commits || exists id :: !net.updates(id)
    {
      ghost var before := rows;
      processed, failed, batch := ProcessBatch(net);
      if !failed {
        BatchPaid(before, rows, batch, nextId, paid, total);
      }
    }

    /** Drain until a batch is not full or fails, or the context is done at the start of turn `doneAt`.  The full
        batches are paid for by the attempts that were left, so with a batch size of at least 1 their number is bounded
        however late the context ends; with 0 nothing but the context or a failure ends the loop.  A clean return leaves
        pending only rows of the last batch, whose publish has just failed.  `net` answers the batch of each turn. */
    method Drain(doneAt: nat, net: nat -> Answers)
      returns (clean: bool, failed: bool, ghost full: nat, ghost last: seq<nat>, ghost acksBefore: multiset<nat>)
      requires Valid()
      modifies `rows, `acks, `aborted
      ensures Valid() && rows.Keys == old(rows).Keys
      ensures full * batchSize + Budget(rows, nextId) <= Budget(old(rows), nextId)
      ensures full * batchSize <= 5 * PendingRows(old(rows), nextId)
      ensures full <= doneAt && (clean || failed || full == doneAt) && !(clean && failed)
      ensures batchSize == 0 ==> !clean && rows == old(rows)
      ensures clean ==> |last| < batchSize && JustFailed(rows, acks, last, acksBefore, net(full))
      ensures failed ==>
                || (exists t :: !net(t).begins || !net(t).queries || !net(t).commits)
                || exists t, id :: !net(t).updates(id)
    {
      clean, failed, full, last, acksBefore := false, false, 0, [], acks;
      BudgetBound(rows, nextId);
      ghost var total := Budget(rows, nextId);
      ghost var paid := 0;
      var turn := 0;
      while turn < doneAt
        invariant Valid() && rows.Keys == old(rows).Keys && !clean && !failed
        invariant full == turn <= doneAt && (batchSize == 0 ==> rows == old(rows))
        invariant paid == full * batchSize && paid + Budget(rows, nextId) <= total
      {
        acksBefore := acks;
        var processed;
        processed, failed, last := NextBatch(net(turn), paid, total);
        if failed {
          return;
        }
        if processed < batchSize {
          clean := true;
          return;
        }
        OneMore(full, batchSize);
        turn, full, paid := turn + 1, full + 1, paid + batchSize;
      }
    }
  }
}
