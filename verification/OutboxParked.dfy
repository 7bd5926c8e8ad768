/** A limit of the outbox, and where exactly it lies: a row can still be published as long as it is not parked, and any
    row that is not published can still be parked. */
module OutboxParked {
  import opened OutboxModel
  import opened OutboxInvariant
  import opened OutboxRelay
  import opened OutboxSafety

  /** Any continuation of a run. */
  ghost predicate IsPath(limit: nat, path: seq<State>) {
    |path| > 0 && forall i: nat :: StepAt(limit, path, i)
  }

  ghost predicate Continues(limit: nat, s: State, t: State) {
    exists path :: IsPath(limit, path) && path[0] == s && path[|path| - 1] == t
  }

  lemma Stays(limit: nat, s: State)
    ensures Continues(limit, s, s)
  {
    assert IsPath(limit, [s]) && [s][0] == s && [s][|[s]| - 1] == s;
  }

  lemma Longer(limit: nat, path: seq<State>, next: State)
    requires IsPath(limit, path) && Step(limit, path[|path| - 1], next)
    ensures IsPath(limit, path + [next])
  {
    forall i: nat ensures StepAt(limit, path + [next], i) {
      assert StepAt(limit, path, i);
    }
  }

  lemma Then(limit: nat, s: State, t: State, a: Action)
    requires Continues(limit, s, t) && Enabled(limit, t, a)
    ensures Continues(limit, s, Apply(limit, t, a))
  {
    var path :| IsPath(limit, path) && path[0] == s && path[|path| - 1] == t;
    var next := Apply(limit, t, a);
    assert Step(limit, t, next);
    Longer(limit, path, next);
    assert (path + [next])[0] == s && (path + [next])[|path|] == next;
  }

  /** A row that is published or parked stays as it is, in every continuation; and no row disappears. */
  lemma {:induction false} SettledForGood(limit: nat, path: seq<State>, i: nat, id: nat)
    requires IsPath(limit, path) && i < |path| && Inv(path[0]) && id in path[0].rows
    ensures Inv(path[i]) && id in path[i].rows
    ensures !Eligible(path[0].rows[id]) ==> path[i].rows[id] == path[0].rows[id]
    ensures path[0].rows[id].published ==> path[i].rows[id].published
  {
    if i > 0 {
      SettledForGood(limit, path, i - 1, id);
      assert StepAt(limit, path, i - 1);
      InvStep(limit, path[i - 1], path[i]);
      var a :| Enabled(limit, path[i - 1], a) && Apply(limit, path[i - 1], a) == path[i];
      RowStepKept(limit, path[i - 1], a, id);
    }
  }

  lemma ContinuationOk(limit: nat, s: State, t: State, id: nat)
    requires Inv(s) && Continues(limit, s, t) && id in s.rows
    ensures Inv(t) && id in t.rows && (!Eligible(s.rows[id]) ==> t.rows[id] == s.rows[id])
  {
    var path :| IsPath(limit, path) && path[0] == s && path[|path| - 1] == t;
    SettledForGood(limit, path, |path| - 1, id);
  }

  // ----- Clearing the way -----

  /** `t` continues `s` with the same rows and acknowledgements. */
  ghost predicate Quietly(limit: nat, s: State, t: State) {
    && Continues(limit, s, t) && t.rows == s.rows && t.nextId == s.nextId && t.acks == s.acks
    && |t.relays| == |s.relays|
  }

  lemma {:induction false} AbortAll(limit: nat, s: State, n: nat) returns (t: State)
    requires n <= |s.relays|
    ensures Quietly(limit, s, t) && forall r :: 0 <= r < n ==> t.relays[r].Resting?
  {
    if n == 0 {
      Stays(limit, s);
      t := s;
    } else {
      t := AbortAll(limit, s, n - 1);
      if t.relays[n - 1].InTx? {
        Then(limit, s, t, Abort(n - 1));
        t := Apply(limit, t, Abort(n - 1));
      }
    }
  }

  lemma {:induction false} BatchExists(rows: map<nat, Row>, limit: nat) returns (batch: seq<nat>, rest: set<nat>)
    ensures Picked(rows, batch, rest) && |batch| <= limit && (rest == {} || |batch| == limit)
  {
    if limit == 0 {
      batch, rest := [], set id | id in rows && Eligible(rows[id]);
    } else {
      batch, rest := BatchExists(rows, limit - 1);
      if rest != {} {
        OldestExists(rows, rest);
        var id :| id in rest && forall other :: other in rest ==> rows[id].created <= rows[other].created;
        PickOldest(rows, batch, rest, id);
        batch, rest := batch + [id], rest - {id};
      }
    }
  }

  /** Nobody holds a lock. */
  ghost predicate AllResting(s: State) {
    |s.relays| > 0 && forall r :: 0 <= r < |s.relays| ==> s.relays[r].Resting?
  }

  // ----- One batch of relay 0, in which every publish succeeds, or every publish fails -----

  /** The row updates of a transaction after the first `i` messages of its batch. */
  ghost predicate ViewTried(rows: map<nat, Row>, view: map<nat, Row>, batch: seq<nat>, i: nat, ok: bool) {
    && i <= |batch| && view.Keys == (set j | 0 <= j < i :: batch[j])
    && (forall j :: 0 <= j < i ==> batch[j] in rows && batch[j] in view && view[batch[j]] == Marked(rows[batch[j]], ok))
  }

  lemma ViewGrows(rows: map<nat, Row>, view: map<nat, Row>, batch: seq<nat>, i: nat, ok: bool)
    requires ViewTried(rows, view, batch, i, ok) && i < |batch| && batch[i] in rows
    requires forall j, k :: 0 <= j < k < |batch| ==> batch[j] != batch[k]
    ensures ViewTried(rows, view[batch[i] := Marked(rows[batch[i]], ok)], batch, i + 1, ok)
  {
    assert (set j | 0 <= j < i + 1 :: batch[j]) == (set j | 0 <= j < i :: batch[j]) + {batch[i]};
  }

  /** Relay 0 has finished the first `i` messages of its batch and is at `stage` with the next one. */
  ghost predicate Halfway(limit: nat, s: State, t: State, batch: seq<nat>, i: nat, stage: Stage, ok: bool) {
    && Continues(limit, s, t) && t.rows == s.rows && t.nextId == s.nextId && (!ok ==> t.acks == s.acks)
    && |t.relays| == |s.relays| > 0 && (forall r :: 0 < r < |t.relays| ==> t.relays[r].Resting?)
    && i <= |batch| && t.relays[0].InTx? && t.relays[0].batch == batch
    && t.relays[0].pos == i && t.relays[0].stage == stage
    && ViewTried(s.rows, t.relays[0].view, batch, i, ok)
  }

  lemma BatchBegins(limit: nat, s: State, batch: seq<nat>, ok: bool) returns (t: State)
    requires AllResting(s) && OldestFirst(s.rows, limit, batch)
    ensures Halfway(limit, s, t, batch, 0, ToPublish, ok)
  {
    assert forall id :: Selectable(s, id) <==> id in s.rows && Eligible(s.rows[id]);
    Stays(limit, s);
    Then(limit, s, s, Begin(0, batch));
    t := Apply(limit, s, Begin(0, batch));
  }

  /** The producer accepts the current message, or does not. */
  lemma PublishTried(limit: nat, s: State, t: State, batch: seq<nat>, i: nat, ok: bool) returns (u: State)
    requires Halfway(limit, s, t, batch, i, ToPublish, ok) && i < |batch| && batch[i] in s.rows
    ensures Halfway(limit, s, u, batch, i, if ok then ToMark else ToRetry, ok)
  {
    var publish := if ok then PublishOk(0) else PublishErr(0);
    Then(limit, s, t, publish);
    u := Apply(limit, t, publish);
  }

  lemma MarkTried(limit: nat, s: State, t: State, batch: seq<nat>, i: nat, ok: bool) returns (u: State)
    requires Halfway(limit, s, t, batch, i, if ok then ToMark else ToRetry, ok) && i < |batch| && batch[i] in s.rows
    requires forall j, k :: 0 <= j < k < |batch| ==> batch[j] != batch[k]
    ensures Halfway(limit, s, u, batch, i + 1, ToPublish, ok)
  {
    var mark := if ok then MarkPublished(0) else UpdateRetryCount(0);
    Then(limit, s, t, mark);
    u := Apply(limit, t, mark);
    ViewGrows(s.rows, t.relays[0].view, batch, i, ok);
  }

  lemma {:induction false} BatchTried(limit: nat, s: State, batch: seq<nat>, i: nat, ok: bool) returns (t: State)
    requires AllResting(s) && OldestFirst(s.rows, limit, batch) && i <= |batch|
    ensures Halfway(limit, s, t, batch, i, ToPublish, ok)
  {
    if i == 0 {
      t := BatchBegins(limit, s, batch, ok);
    } else {
      t := BatchTried(limit, s, batch, i - 1, ok);
      t := PublishTried(limit, s, t, batch, i - 1, ok);
      t := MarkTried(limit, s, t, batch, i - 1, ok);
    }
  }

  /** Every row of the batch was tried, every other row is as before. */
  ghost predicate AllTried(before: map<nat, Row>, after: map<nat, Row>, batch: seq<nat>, ok: bool) {
    && BatchDone(before, after, batch)
    && (forall id :: id in batch && id in before && id in after ==> after[id] == Marked(before[id], ok))
  }

  lemma ViewCommits(rows: map<nat, Row>, view: map<nat, Row>, batch: seq<nat>, ok: bool)
    requires forall i :: 0 <= i < |batch| ==> batch[i] in rows && Eligible(rows[batch[i]])
    requires ViewTried(rows, view, batch, |batch|, ok)
    ensures AllTried(rows, rows + view, batch, ok)
  {
    forall id | id in batch
      ensures id in view && view[id] == Marked(rows[id], ok)
    {
      var j :| 0 <= j < |batch| && batch[j] == id;
    }
    assert (rows + view).Keys == rows.Keys;
  }

  /** A whole batch, committed. */
  lemma BatchCommits(limit: nat, s: State, ok: bool) returns (t: State, batch: seq<nat>)
    requires AllResting(s)
    ensures OldestFirst(s.rows, limit, batch) && AllTried(s.rows, t.rows, batch, ok)
    ensures Continues(limit, s, t) && AllResting(t) && t.nextId == s.nextId && (!ok ==> t.acks == s.acks)
  {
    var rest;
    batch, rest := BatchExists(s.rows, limit);
    var u := BatchTried(limit, s, batch, |batch|, ok);
    ViewCommits(s.rows, u.relays[0].view, batch, ok);
    Then(limit, s, u, Commit(0));
    t := Apply(limit, u, Commit(0));
  }

  // ----- Until the row's turn -----

  lemma {:induction false} Join(limit: nat, s: State, path: seq<State>, n: nat)
    requires IsPath(limit, path) && n < |path| && Continues(limit, s, path[0])
    ensures Continues(limit, s, path[n])
  {
    if n > 0 {
      Join(limit, s, path, n - 1);
      assert StepAt(limit, path, n - 1);
      var a :| Enabled(limit, path[n - 1], a) && Apply(limit, path[n - 1], a) == path[n];
      Then(limit, s, path[n - 1], a);
    }
  }

  lemma Chain(limit: nat, s: State, t: State, u: State)
    requires Continues(limit, s, t) && Continues(limit, t, u)
    ensures Continues(limit, s, u)
  {
    var path :| IsPath(limit, path) && path[0] == t && path[|path| - 1] == u;
    Join(limit, s, path, |path| - 1);
  }

  /** A batch that leaves a pending row waiting uses up attempts of others. */
  lemma BatchPays(limit: nat, s: State, after: map<nat, Row>, batch: seq<nat>, id: nat, ok: bool)
    requires limit >= 1 && RowsOk(s.rows, s.nextId) && OldestFirst(s.rows, limit, batch)
    requires AllTried(s.rows, after, batch, ok)
    requires id in s.rows && Eligible(s.rows[id])
    ensures Budget(after, s.nextId) < Budget(s.rows, s.nextId)
  {
    BatchSpends(s.rows, after, batch, s.nextId);
    InBatchCounts(batch, s.nextId);
    assert id in batch || |batch| == limit;
  }

  /** Relay 0 works off full batches, oldest first, until the row has had its turn. */
  lemma {:induction false} TurnComes(limit: nat, s: State, id: nat, ok: bool) returns (t: State)
    requires limit >= 1 && Inv(s) && AllResting(s) && id in s.rows && !s.rows[id].published
    ensures Continues(limit, s, t) && id in t.rows && (!ok ==> t.acks == s.acks)
    ensures if ok then t.rows[id].published || Parked(s.rows[id]) else Parked(t.rows[id])
    decreases Budget(s.rows, s.nextId)
  {
    if !Eligible(s.rows[id]) {
      Stays(limit, s);
      t := s;
    } else {
      var u, batch := BatchCommits(limit, s, ok);
      BatchPays(limit, s, u.rows, batch, id, ok);
      ContinuationOk(limit, s, u, id);
      if u.rows[id].published {
        t := u;
      } else {
        t := TurnComes(limit, u, id, ok);
        Chain(limit, s, u, t);
      }
    }
  }

  /** From any state: abort what is open, then work off batches. */
  lemma TurnReached(limit: nat, s: State, id: nat, ok: bool) returns (t: State)
    requires limit >= 1 && Reachable(limit, s) && |s.relays| > 0 && id in s.rows && !s.rows[id].published
    ensures Continues(limit, s, t) && id in t.rows && (!ok ==> t.acks == s.acks)
    ensures if ok then t.rows[id].published || Parked(s.rows[id]) else Parked(t.rows[id])
  {
    InvReachable(limit, s);
    var u := AbortAll(limit, s, |s.relays|);
    ContinuationOk(limit, s, u, id);
    t := TurnComes(limit, u, id, ok);
    Chain(limit, s, u, t);
  }

  /** A row can still be published, in some continuation, exactly when it is not parked. */
  lemma PublishableExactly(limit: nat, s: State, id: nat)
    requires limit >= 1 && Reachable(limit, s) && |s.relays| > 0 && id in s.rows
    ensures (exists t :: Continues(limit, s, t) && id in t.rows && t.rows[id].published) <==> !Parked(s.rows[id])
  {
    InvReachable(limit, s);
    if s.rows[id].published {
      Stays(limit, s);
    } else if Parked(s.rows[id]) {
      forall t | Continues(limit, s, t)
        ensures id in t.rows && !t.rows[id].published
      {
        ContinuationOk(limit, s, t, id);
      }
    } else {
      var t := TurnReached(limit, s, id, true);
    }
  }

  /** A row can still be parked, without another acknowledged publish, exactly when it is not published. */
  lemma LosableExactly(limit: nat, s: State, id: nat)
    requires limit >= 1 && Reachable(limit, s) && |s.relays| > 0 && id in s.rows
    ensures (exists t :: Continues(limit, s, t) && id in t.rows && Parked(t.rows[id]) && t.acks == s.acks) <==>
            !s.rows[id].published
  {
    InvReachable(limit, s);
    if s.rows[id].published {
      forall t | Continues(limit, s, t)
        ensures id in t.rows && t.rows[id].published
      {
        ContinuationOk(limit, s, t, id);
      }
    } else {
      var t := TurnReached(limit, s, id, false);
    }
  }

  // ----- A lost command -----

  /** One relay and one writer, both idle; order 7 is saved, its command waits. */
  const ORDER_SAVED :=
    State(map[7 := Pending], map[0 := Row(CreateOrder, 7, 0, false, 0)], 1, [Resting], [NoTx], multiset{}, multiset{})

  /** The writer has inserted order 7 but not its command. */
  const HALF_WRITTEN := State(map[], map[], 0, [Resting], [Ordered(NewOrder(7))], multiset{}, multiset{})

  lemma OrderWritten(limit: nat)
    ensures Continues(limit, Start(1, 1), HALF_WRITTEN)
  {
    var s := Start(1, 1);
    Stays(limit, s);
    Then(limit, s, s, BeginWrite(0, NewOrder(7)));
    var t := Apply(limit, s, BeginWrite(0, NewOrder(7)));
    assert t == HALF_WRITTEN.(writers := [Begun(NewOrder(7))]);
    Then(limit, s, t, WriteOrder(0));
    assert Apply(limit, t, WriteOrder(0)) == HALF_WRITTEN;
  }

  lemma OrderSaved(limit: nat)
    ensures Continues(limit, Start(1, 1), ORDER_SAVED)
  {
    OrderWritten(limit);
    Then(limit, Start(1, 1), HALF_WRITTEN, InsertRow(0, 0));
    var t := Apply(limit, HALF_WRITTEN, InsertRow(0, 0));
    assert t == HALF_WRITTEN.(nextId := 1, writers := [Enqueued(NewOrder(7), 0, Row(CreateOrder, 7, 0, false, 0))]);
    Then(limit, Start(1, 1), t, CommitWrite(0));
    assert Apply(limit, t, CommitWrite(0)) == ORDER_SAVED;
  }

  lemma StartContinues(limit: nat, s: State)
    requires exists k: nat, w: nat :: Continues(limit, Start(k, w), s)
    ensures Reachable(limit, s)
  {
    var k: nat, w: nat :| Continues(limit, Start(k, w), s);
    var path :| IsPath(limit, path) && path[0] == Start(k, w) && path[|path| - 1] == s;
    assert IsRun(limit, path);
  }

  lemma {:induction false} CommandStays(limit: nat, path: seq<State>, i: nat, id: nat, order: nat)
    requires IsPath(limit, path) && i < |path| && Inv(path[0]) && id in path[0].rows
    requires Commands(path[0].rows[id], order)
    ensures Inv(path[i]) && id in path[i].rows && Commands(path[i].rows[id], order)
  {
    if i > 0 {
      CommandStays(limit, path, i - 1, id, order);
      assert StepAt(limit, path, i - 1);
      InvStep(limit, path[i - 1], path[i]);
      var a :| Enabled(limit, path[i - 1], a) && Apply(limit, path[i - 1], a) == path[i];
      RowStepKept(limit, path[i - 1], a, id);
    }
  }

  lemma CommandKept(limit: nat, s: State, t: State, id: nat, order: nat)
    requires Inv(s) && Continues(limit, s, t) && id in s.rows && Commands(s.rows[id], order)
    ensures id in t.rows && Commands(t.rows[id], order) && order in t.orders
  {
    var path :| IsPath(limit, path) && path[0] == s && path[|path| - 1] == t;
    CommandStays(limit, path, |path| - 1, id, order);
  }

  /** Saved orders and their command rows stay. */
  lemma SavedForGood(limit: nat, s: State)
    requires Continues(limit, ORDER_SAVED, s) && Reachable(limit, ORDER_SAVED)
    ensures 7 in s.orders && 0 in s.rows && Commands(s.rows[0], 7)
  {
    InvReachable(limit, ORDER_SAVED);
    CommandKept(limit, ORDER_SAVED, s, 0, 7);
  }

  /** For every batch size there is a committed order whose command was never acknowledged and never will be. */
  lemma CommandCanBeLost(limit: nat) returns (s: State)
    requires limit >= 1
    ensures Reachable(limit, s) && 7 in s.orders && 0 in s.rows && Commands(s.rows[0], 7) && s.acks == multiset{}
    ensures forall t :: Continues(limit, s, t) ==> 0 in t.rows && Parked(t.rows[0])
  {
    OrderSaved(limit);
    StartContinues(limit, ORDER_SAVED);
    LosableExactly(limit, ORDER_SAVED, 0);
    s :| Continues(limit, ORDER_SAVED, s) && 0 in s.rows && Parked(s.rows[0]) && s.acks == ORDER_SAVED.acks;
    Chain(limit, Start(1, 1), ORDER_SAVED, s);
    StartContinues(limit, s);
    InvReachable(limit, s);
    forall t | Continues(limit, s, t)
      ensures 0 in t.rows && Parked(t.rows[0])
    {
      ContinuationOk(limit, s, t, 0);
    }
    SavedForGood(limit, s);
  }
}
