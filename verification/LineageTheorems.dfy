/** What holds over all deliveries of one order command, and exactly when it can be confirmed more than once. */
module LineageTheorems {
  import opened HandlerChain
  import Idempotency
  import opened Lineage
  import opened Options
  import opened OrderSaga
  import opened Text

  // ----- Reservations -----

  /** Delivery `k` runs the saga: the transaction gets that far, and the key is not stored. */
  predicate RunsAt(decodes: string -> bool, h: History, k: nat)
    requires Tracks(h) && k < |h.deliveries|
  {
    var d := h.deliveries[k];
    !IsStored(h.states[k], d.msg) && Starts(decodes, h.states[k].log[d.msg], d.at)
  }

  predicate ConfirmsAt(decodes: string -> bool, h: History, k: nat)
    requires Tracks(h) && k < |h.deliveries|
  {
    RunsAt(decodes, h, k) && OrderConfirmed(h.deliveries[k].at.saga)
  }

  /** The confirmations among the first `n` deliveries. */
  function Confirmations(decodes: string -> bool, h: History, n: nat): nat
    requires Tracks(h) && n <= |h.deliveries|
  {
    if n == 0 then 0 else Confirmations(decodes, h, n - 1) + One(ConfirmsAt(decodes, h, n - 1))
  }

  /** Those of them whose outer commit was lost. */
  function LostConfirmations(decodes: string -> bool, h: History, n: nat): nat
    requires Tracks(h) && n <= |h.deliveries|
  {
    if n == 0 then 0
    else LostConfirmations(decodes, h, n - 1) + One(ConfirmsAt(decodes, h, n - 1) && !h.deliveries[n - 1].at.commitOk)
  }

  /** The payments, and the stock reservations, that the first `n` deliveries leave: those of confirmed orders, and
      those that could not be cancelled. */
  function PaymentsKept(decodes: string -> bool, h: History, n: nat): nat
    requires Tracks(h) && n <= |h.deliveries|
  {
    if n == 0 then 0
    else
      var env := h.deliveries[n - 1].at.saga;
      PaymentsKept(decodes, h, n - 1) + One(RunsAt(decodes, h, n - 1) && (OrderConfirmed(env) || PayLeft(env)))
  }

  function StockKept(decodes: string -> bool, h: History, n: nat): nat
    requires Tracks(h) && n <= |h.deliveries|
  {
    if n == 0 then 0
    else
      var env := h.deliveries[n - 1].at.saga;
      StockKept(decodes, h, n - 1) + One(RunsAt(decodes, h, n - 1) && (OrderConfirmed(env) || StockLeft(env)))
  }

  /** What one delivery adds. */
  lemma HeldAfter(decodes: string -> bool, maxRetries: int, h: History, k: nat)
    requires IsHistory(decodes, maxRetries, h) && k < |h.deliveries|
    ensures var before, after, env := h.states[k].ledger, h.states[k + 1].ledger, h.deliveries[k].at.saga;
            var runs := RunsAt(decodes, h, k);
            && PayHeld(after) == PayHeld(before) + One(runs && (OrderConfirmed(env) || PayLeft(env)))
            && StockHeld(after) == StockHeld(before) + One(runs && (OrderConfirmed(env) || StockLeft(env)))
            && after.confirms == before.confirms + One(ConfirmsAt(decodes, h, k))
            && after.cancellations == before.cancellations
  {
    assert DeliversAt(decodes, maxRetries, h, k);
  }

  /** What a command holds of acknowledged reservations after any number of deliveries. */
  lemma {:induction false} HeldExactly(decodes: string -> bool, maxRetries: int, h: History, n: nat)
    requires IsHistory(decodes, maxRetries, h) && n <= |h.deliveries|
    ensures var before, after := h.states[0].ledger, h.states[n].ledger;
            && PayHeld(after) == PayHeld(before) + PaymentsKept(decodes, h, n)
            && StockHeld(after) == StockHeld(before) + StockKept(decodes, h, n)
            && after.confirms == before.confirms + Confirmations(decodes, h, n)
            && after.cancellations == before.cancellations
  {
    if n > 0 {
      HeldExactly(decodes, maxRetries, h, n - 1);
      HeldAfter(decodes, maxRetries, h, n - 1);
    }
  }

  lemma {:induction false} NothingLeft(decodes: string -> bool, h: History, n: nat)
    requires Tracks(h) && n <= |h.deliveries|
    requires forall k :: 0 <= k < n ==> Compensable(h.deliveries[k].at.saga)
    ensures PaymentsKept(decodes, h, n) == StockKept(decodes, h, n) == Confirmations(decodes, h, n)
  {
    if n > 0 {
      NothingLeft(decodes, h, n - 1);
    }
  }

  /** If every compensation does its job, both kinds of reservation grow by exactly one for each confirmation, however
      many deliveries there are and however they end. */
  lemma Balanced(decodes: string -> bool, maxRetries: int, h: History, n: nat)
    requires IsHistory(decodes, maxRetries, h) && n <= |h.deliveries|
    requires forall k :: 0 <= k < n ==> Compensable(h.deliveries[k].at.saga)
    ensures PayHeld(h.states[n].ledger) - PayHeld(h.states[0].ledger) == Confirmations(decodes, h, n)
    ensures StockHeld(h.states[n].ledger) - StockHeld(h.states[0].ledger) == Confirmations(decodes, h, n)
    ensures h.states[n].ledger.confirms - h.states[0].ledger.confirms == Confirmations(decodes, h, n)
  {
    HeldExactly(decodes, maxRetries, h, n);
    NothingLeft(decodes, h, n);
  }

  // ----- The bound -----

  /** The messages of the lineage whose key is stored. */
  function StoredMessages(log: seq<Message>, stored: set<Coordinates>): nat {
    if log == [] then 0
    else StoredMessages(log[..|log| - 1], stored) + One(CoordinatesOf(log[|log| - 1]) in stored)
  }

  lemma {:induction false} StoredMore(log: seq<Message>, stored: set<Coordinates>, more: set<Coordinates>)
    requires stored <= more
    ensures StoredMessages(log, stored) <= StoredMessages(log, more) <= |log|
  {
    if log != [] {
      StoredMore(log[..|log| - 1], stored, more);
    }
  }

  lemma {:induction false} StoredOneMore(log: seq<Message>, stored: set<Coordinates>, i: nat)
    requires i < |log| && CoordinatesOf(log[i]) !in stored
    ensures StoredMessages(log, stored) + 1 <= StoredMessages(log, stored + {CoordinatesOf(log[i])})
  {
    var rest := log[..|log| - 1];
    if i == |log| - 1 {
      StoredMore(rest, stored, stored + {CoordinatesOf(log[i])});
    } else {
      StoredOneMore(rest, stored, i);
    }
  }

  lemma StoredGrows(maxRetries: int, s: State, d: Delivery, outcome: Outcome, ledger: Ledger)
    requires d.msg < |s.log|
    ensures var t := After(maxRetries, s, d, outcome, ledger);
            StoredMessages(t.log, t.stored) >=
            StoredMessages(s.log, s.stored) + One(outcome.Handled? && !IsStored(s, d.msg))
  {
    var t := After(maxRetries, s, d, outcome, ledger);
    StoredMore(s.log, s.stored, t.stored);
    if outcome.Handled? && !IsStored(s, d.msg) {
      StoredOneMore(s.log, s.stored, d.msg);
    }
    if t.log != s.log {
      assert t.log[..|t.log| - 1] == s.log;
    }
  }

  /** A confirming delivery loses its outer commit or stores the key of one more message. */
  lemma StoredAt(decodes: string -> bool, maxRetries: int, h: History, k: nat)
    requires IsHistory(decodes, maxRetries, h) && k < |h.deliveries|
    ensures StoredMessages(h.states[k + 1].log, h.states[k + 1].stored) >=
            StoredMessages(h.states[k].log, h.states[k].stored)
            + One(ConfirmsAt(decodes, h, k) && h.deliveries[k].at.commitOk)
  {
    assert DeliversAt(decodes, maxRetries, h, k);
    StoredGrows(maxRetries, h.states[k], h.deliveries[k], h.outcomes[k], h.states[k + 1].ledger);
  }

  /** No more confirmations than confirming deliveries whose outer commit was lost and messages whose key is stored,
      whatever is delivered again. */
  lemma {:induction false} ConfirmationsBounded(decodes: string -> bool, maxRetries: int, h: History, n: nat)
    requires IsHistory(decodes, maxRetries, h) && n <= |h.deliveries|
    ensures Confirmations(decodes, h, n) <=
            LostConfirmations(decodes, h, n) + StoredMessages(h.states[n].log, h.states[n].stored)
  {
    if n > 0 {
      ConfirmationsBounded(decodes, maxRetries, h, n - 1);
      StoredAt(decodes, maxRetries, h, n - 1);
    }
  }

  // ----- The messages of a lineage -----

  /** Message `j` is the retry of its parent. */
  predicate LinkedAt(maxRetries: int, s: State, j: nat) {
    0 < j < |s.log| && j < |s.parents| ==>
      && s.parents[j] < j
      && var parent, msg := s.log[s.parents[j]], s.log[j];
      && msg.topic == parent.topic && msg.key == parent.key && msg.value == parent.value
      && RetryCount(parent.headers).Some? && RetryCount(parent.headers).value < maxRetries
      && msg.headers == Bumped(parent.headers, RetryCount(parent.headers).value + 1)
  }

  /** Every message but the first is a retry of an earlier one, and all have different places. */
  ghost predicate LogOk(maxRetries: int, s: State) {
    && |s.parents| == |s.log| > 0
    && (forall j: nat :: LinkedAt(maxRetries, s, j))
    && (forall i, j :: 0 <= i < j < |s.log| ==>
          (s.log[i].partition, s.log[i].offset) != (s.log[j].partition, s.log[j].offset))
  }

  lemma LogOkNext(decodes: string -> bool, maxRetries: int, s: State, d: Delivery, outcome: Outcome, t: State)
    requires LogOk(maxRetries, s) && Delivers(decodes, maxRetries, s, d, outcome, t)
    ensures LogOk(maxRetries, t) && s.log <= t.log && s.parents <= t.parents
  {
    forall j: nat ensures LinkedAt(maxRetries, t, j) {
      assert LinkedAt(maxRetries, s, j);
    }
  }

  lemma {:induction false} LogAlways(decodes: string -> bool, maxRetries: int, h: History, n: nat)
    requires IsHistory(decodes, maxRetries, h) && n <= |h.deliveries|
    ensures LogOk(maxRetries, h.states[n]) && h.states[n].log[0] == h.states[0].log[0]
  {
    if n > 0 {
      LogAlways(decodes, maxRetries, h, n - 1);
      assert DeliversAt(decodes, maxRetries, h, n - 1);
      LogOkNext(decodes, maxRetries, h.states[n - 1], h.deliveries[n - 1], h.outcomes[n - 1], h.states[n]);
    }
  }

  /** No two messages of a lineage share a key, so the guard never takes a retry for the message it repeats. */
  lemma KeysDiffer(decodes: string -> bool, maxRetries: int, h: History, n: nat, i: nat, j: nat)
    requires IsHistory(decodes, maxRetries, h) && n <= |h.deliveries| && i < |h.states[n].log| && j < |h.states[n].log|
    requires var a, b := h.states[n].log[i], h.states[n].log[j];
             Idempotency.Key(a.topic, a.partition, a.offset) == Idempotency.Key(b.topic, b.partition, b.offset)
    ensures i == j
  {
    LogAlways(decodes, maxRetries, h, n);
    KeyMeansCoordinates(h.states[n].log[i], h.states[n].log[j]);
  }

  /** How many retries lead from the first message to message `j`. */
  function Depth(maxRetries: int, s: State, j: nat): nat
    requires LogOk(maxRetries, s) && j < |s.log|
  {
    assert LinkedAt(maxRetries, s, j);
    if j == 0 then 0 else Depth(maxRetries, s, s.parents[j]) + 1
  }

  lemma {:induction false} KeptAlong(maxRetries: int, s: State, j: nat)
    requires LogOk(maxRetries, s) && j < |s.log| && maxRetries <= MAX_INT64
    ensures var first, msg, depth := s.log[0], s.log[j], Depth(maxRetries, s, j);
            && msg.topic == first.topic && msg.key == first.key && msg.value == first.value
            && Others(msg.headers) == Others(first.headers)
            && (depth > 0 ==> RetryCount(first.headers).Some? && RetryCount(first.headers).value + depth <= maxRetries)
            && (RetryCount(first.headers).Some? ==>
                  RetryCount(msg.headers) == Some(RetryCount(first.headers).value + depth))
            && (j > 0 ==> depth > 0)
  {
    if j > 0 {
      assert LinkedAt(maxRetries, s, j);
      var parent := s.log[s.parents[j]];
      KeptAlong(maxRetries, s, s.parents[j]);
      CountInRange(parent.headers);
      BumpedReadsBack(parent.headers, RetryCount(parent.headers).value + 1);
    }
  }

  /** Every message of a lineage has the topic, key, payload, order and other headers of the first, and its counter plus
      the number of retries that lead to it. */
  lemma RetryKeepsMessage(decodes: string -> bool, maxRetries: int, h: History, n: nat, j: nat)
    requires IsHistory(decodes, maxRetries, h) && maxRetries <= MAX_INT64
    requires n <= |h.deliveries| && j < |h.states[n].log|
    ensures LogOk(maxRetries, h.states[n])
    ensures var first, msg, depth := h.states[0].log[0], h.states[n].log[j], Depth(maxRetries, h.states[n], j);
            && msg.topic == first.topic && msg.key == first.key && msg.value == first.value
            && Others(msg.headers) == Others(first.headers)
            && HeaderValue(msg.headers, ORDER_ID_KEY) == HeaderValue(first.headers, ORDER_ID_KEY)
            && (depth > 0 ==> RetryCount(first.headers).Some? && RetryCount(first.headers).value + depth <= maxRetries)
            && (RetryCount(first.headers).Some? ==>
                  RetryCount(msg.headers) == Some(RetryCount(first.headers).value + depth))
  {
    LogAlways(decodes, maxRetries, h, n);
    KeptAlong(maxRetries, h.states[n], j);
    OthersKeepValues(h.states[0].log[0].headers, ORDER_ID_KEY);
    OthersKeepValues(h.states[n].log[j].headers, ORDER_ID_KEY);
  }

  /** The largest number of retries that may follow one after the other. */
  function MaxDepth(maxRetries: int, first: int): nat {
    if first >= maxRetries then 0 else maxRetries - first
  }

  /** Retries are bounded: no message is more than that many retries away from the first one, and without a readable
      counter there are none. */
  lemma RetriesBounded(decodes: string -> bool, maxRetries: int, h: History, n: nat, j: nat)
    requires IsHistory(decodes, maxRetries, h) && maxRetries <= MAX_INT64
    requires n <= |h.deliveries| && j < |h.states[n].log|
    ensures LogOk(maxRetries, h.states[n])
    ensures var first := RetryCount(h.states[0].log[0].headers);
            Depth(maxRetries, h.states[n], j) <= if first.Some? then MaxDepth(maxRetries, first.value) else 0
  {
    RetryKeepsMessage(decodes, maxRetries, h, n, j);
  }

  /** Which failed deliveries end in the dead-letter topic: permanent failures, and retriable ones exactly at the last
      retry; every other failure asks for the next retry. */
  lemma DeadExactly(decodes: string -> bool, maxRetries: int, h: History, k: nat, first: int)
    requires IsHistory(decodes, maxRetries, h) && k < |h.deliveries| && maxRetries <= MAX_INT64
    requires RetryCount(h.states[0].log[0].headers) == Some(first) && !h.outcomes[k].Handled?
    ensures LogOk(maxRetries, h.states[k])
    ensures var s, d, outcome := h.states[k], h.deliveries[k], h.outcomes[k];
            var depth := Depth(maxRetries, s, d.msg);
            React(s.log[d.msg].headers, outcome, maxRetries) ==
            if outcome.NonRetriable? || depth == MaxDepth(maxRetries, first) then DeadLetter(outcome.text)
            else Republish(first + depth + 1)
  {
    RetryKeepsMessage(decodes, maxRetries, h, k, h.deliveries[k].msg);
  }

  // ----- Exactly when a command can be confirmed more than once -----

  lemma {:induction false} MalformedNeverConfirms(decodes: string -> bool, maxRetries: int, h: History, n: nat)
    requires IsHistory(decodes, maxRetries, h) && n <= |h.deliveries| && maxRetries <= MAX_INT64
    requires !WellFormed(decodes, h.states[0].log[0])
    ensures Confirmations(decodes, h, n) == 0
  {
    if n > 0 {
      MalformedNeverConfirms(decodes, maxRetries, h, n - 1);
      RetryKeepsMessage(decodes, maxRetries, h, n - 1, h.deliveries[n - 1].msg);
    }
  }

  /** A saga that meets no trouble. */
  const SMOOTH := Env(Reserved("p"), Reserved("r"), true, true, true, (_: nat) => false)

  /** A saga that finds the breaker of the payment service open. */
  const REFUSED := Env(Refused(true), Reserved("r"), true, true, true, (_: nat) => false)

  /** The ledger after a saga without trouble. */
  function Confirmed(l: Ledger): Ledger {
    l.(payReserves := l.payReserves + 1, stockReserves := l.stockReserves + 1, confirms := l.confirms + 1)
  }

  /** What comes later does not change what earlier deliveries did. */
  lemma ConfirmsBefore(decodes: string -> bool, h: History, h': History, k: nat)
    requires Tracks(h) && Tracks(h') && h.deliveries <= h'.deliveries && h.states <= h'.states && k < |h.deliveries|
    ensures ConfirmsAt(decodes, h', k) == ConfirmsAt(decodes, h, k)
  {
  }

  lemma {:induction false} SameConfirmations(decodes: string -> bool, h: History, h': History, n: nat)
    requires Tracks(h) && Tracks(h') && h.deliveries <= h'.deliveries && h.states <= h'.states && n <= |h.deliveries|
    ensures Confirmations(decodes, h', n) == Confirmations(decodes, h, n)
  {
    if n > 0 {
      SameConfirmations(decodes, h, h', n - 1);
      ConfirmsBefore(decodes, h, h', n - 1);
    }
  }

  /** A delivery that confirms the order; its outer commit may be lost. */
  lemma Confirming(decodes: string -> bool, maxRetries: int, h: History, d: Delivery) returns (h': History)
    requires IsHistory(decodes, maxRetries, h) && maxRetries <= MAX_INT64
    requires var s := h.states[|h.deliveries|];
             d.msg < |s.log| && Unused(s, d.place) && !IsStored(s, d.msg) && WellFormed(decodes, s.log[d.msg])
    requires d.at.beginOk && d.at.insertOk && d.at.saga == SMOOTH
    ensures IsHistory(decodes, maxRetries, h') && h'.deliveries == h.deliveries + [d]
    ensures var s, outcome := h.states[|h.deliveries|], if d.at.commitOk then Outcome.Handled else Failed("tx commit");
            && h' == Longer(h, d, outcome, After(maxRetries, s, d, outcome, Confirmed(s.ledger)))
            && Confirmations(decodes, h', |h'.deliveries|) == Confirmations(decodes, h, |h.deliveries|) + 1
  {
    var n := |h.deliveries|;
    var s := h.states[n];
    var outcome := if d.at.commitOk then Outcome.Handled else Failed("tx commit");
    var t := After(maxRetries, s, d, outcome, Confirmed(s.ledger));
    assert AttemptEffect(SMOOTH, s.ledger, Confirmed(s.ledger), None);
    LongerOk(decodes, maxRetries, h, d, outcome, t);
    h' := Longer(h, d, outcome, t);
    SameConfirmations(decodes, h, h', n);
  }

  /** A delivery whose commit is lost is confirmed again when it is repeated, whatever its counter says. */
  lemma LostCommitConfirmsTwice(decodes: string -> bool, msg: Message, maxRetries: int, accepted: bool)
    returns (h: History)
    requires WellFormed(decodes, msg) && maxRetries <= MAX_INT64
    ensures IsHistory(decodes, maxRetries, h) && h.states[0].log == [msg] && |h.deliveries| == 2
    ensures forall k :: 0 <= k < 2 ==> h.deliveries[k].msg == 0 && Compensable(h.deliveries[k].at.saga)
    ensures Confirmations(decodes, h, 2) == 2
  {
    var start := Ledger("", "", 0, 0, 0, 0, 0, 0);
    UndeliveredOk(decodes, maxRetries, msg, start);
    h := Undelivered(msg, start);
    var place := (msg.partition, msg.offset + 1);
    h := Confirming(decodes, maxRetries, h, Delivery(0, Attempt(true, true, SMOOTH, false), place, accepted, false));
    var next := (msg.partition, msg.offset + 2);
    h := Confirming(decodes, maxRetries, h, Delivery(0, Attempt(true, true, SMOOTH, true), next, accepted, false));
  }

  /** In some history a command is confirmed more than once. */
  ghost predicate CanConfirmTwice(decodes: string -> bool, msg: Message, maxRetries: int) {
    exists h: History ::
      && IsHistory(decodes, maxRetries, h) && h.states[0].log == [msg]
      && Confirmations(decodes, h, |h.deliveries|) >= 2
  }

  /** A command can be confirmed more than once exactly when it can be processed at all. */
  lemma ConfirmedTwiceExactly(decodes: string -> bool, msg: Message, maxRetries: int)
    requires maxRetries <= MAX_INT64
    ensures CanConfirmTwice(decodes, msg, maxRetries) <==> WellFormed(decodes, msg)
  {
    if WellFormed(decodes, msg) {
      var h := LostCommitConfirmsTwice(decodes, msg, maxRetries, true);
    } else {
      forall h: History | IsHistory(decodes, maxRetries, h) && h.states[0].log == [msg]
        ensures Confirmations(decodes, h, |h.deliveries|) == 0
      {
        MalformedNeverConfirms(decodes, maxRetries, h, |h.deliveries|);
      }
    }
  }

  // ----- Without lost commits -----

  /** After delivery `k` its message has nothing more to do: it was handled, or its retry is in the lineage. */
  predicate PassesAt(maxRetries: int, h: History, k: nat)
    requires Tracks(h) && k < |h.deliveries|
  {
    h.outcomes[k].Handled? || Retries(maxRetries, h.states[k], h.deliveries[k], h.outcomes[k])
  }

  /** Delivery `k` does nothing: the key of its message is stored, and the transaction of the guard succeeds. */
  predicate SkipsAt(h: History, k: nat)
    requires Tracks(h) && k < |h.deliveries|
  {
    IsStored(h.states[k], h.deliveries[k].msg) && h.outcomes[k].Handled?
  }

  /** Message `i` has been handled or retried by one of the first `n` deliveries. */
  ghost predicate Passed(maxRetries: int, h: History, n: nat, i: nat)
    requires Tracks(h) && n <= |h.deliveries|
  {
    exists k :: 0 <= k < n && h.deliveries[k].msg == i && PassesAt(maxRetries, h, k)
  }

  /** A message that has been handled or retried is not delivered again, unless the guard skips it. */
  ghost predicate PassedOnce(maxRetries: int, h: History)
    requires Tracks(h)
  {
    forall k :: 0 <= k < |h.deliveries| && Passed(maxRetries, h, k, h.deliveries[k].msg) ==> SkipsAt(h, k)
  }

  /** No delivery that confirms the order loses its outer commit. */
  ghost predicate NothingLost(decodes: string -> bool, h: History)
    requires Tracks(h)
  {
    forall k :: 0 <= k < |h.deliveries| && ConfirmsAt(decodes, h, k) ==> h.deliveries[k].at.commitOk
  }

  /** Every message but the last has been passed, and each is the retry of the one before it. */
  ghost predicate OnlyLastOpen(maxRetries: int, h: History, n: nat)
    requires Tracks(h) && n <= |h.deliveries|
  {
    var s := h.states[n];
    && |s.parents| == |s.log| > 0 && (forall j :: 0 < j < |s.log| ==> s.parents[j] == j - 1)
    && (forall i :: 0 <= i < |s.log| - 1 ==> Passed(maxRetries, h, n, i))
  }

  lemma PassedStays(maxRetries: int, h: History, n: nat, i: nat)
    requires Tracks(h) && n < |h.deliveries|
    ensures Passed(maxRetries, h, n, i) ==> Passed(maxRetries, h, n + 1, i)
    ensures h.deliveries[n].msg == i && PassesAt(maxRetries, h, n) ==> Passed(maxRetries, h, n + 1, i)
  {
  }

  /** A delivery of a passed message is skipped; any other is of the last message. */
  lemma OpenIsLast(decodes: string -> bool, maxRetries: int, h: History, n: nat)
    requires IsHistory(decodes, maxRetries, h) && n < |h.deliveries| && PassedOnce(maxRetries, h)
    requires OnlyLastOpen(maxRetries, h, n)
    ensures var s, t, d := h.states[n], h.states[n + 1], h.deliveries[n];
            && (if Passed(maxRetries, h, n, d.msg) then !ConfirmsAt(decodes, h, n) && t.log == s.log
                else d.msg == |s.log| - 1)
            && (|| (t.log == s.log && t.parents == s.parents)
                || (&& |t.log| == |s.log| + 1 && t.parents == s.parents + [|s.log| - 1]
                    && d.msg == |s.log| - 1 && PassesAt(maxRetries, h, n)))
  {
    assert DeliversAt(decodes, maxRetries, h, n);
    if Passed(maxRetries, h, n, h.deliveries[n].msg) {
      assert SkipsAt(h, n);
    }
  }

  lemma OnlyLastOpenNext(decodes: string -> bool, maxRetries: int, h: History, n: nat)
    requires IsHistory(decodes, maxRetries, h) && n < |h.deliveries| && PassedOnce(maxRetries, h)
    requires OnlyLastOpen(maxRetries, h, n)
    ensures OnlyLastOpen(maxRetries, h, n + 1)
  {
    OpenIsLast(decodes, maxRetries, h, n);
    PassedStays(maxRetries, h, n, h.deliveries[n].msg);
    var next := n + 1;
    forall i | 0 <= i < |h.states[next].log| - 1 ensures Passed(maxRetries, h, next, i) {
      PassedStays(maxRetries, h, n, i);
    }
  }

  lemma {:induction false} OnlyLastOpenAlways(decodes: string -> bool, maxRetries: int, h: History, n: nat)
    requires IsHistory(decodes, maxRetries, h) && n <= |h.deliveries| && PassedOnce(maxRetries, h)
    ensures OnlyLastOpen(maxRetries, h, n)
  {
    if n > 0 {
      OnlyLastOpenAlways(decodes, maxRetries, h, n - 1);
      OnlyLastOpenNext(decodes, maxRetries, h, n - 1);
    }
  }

  lemma {:induction false} ChainDepth(maxRetries: int, s: State, j: nat)
    requires LogOk(maxRetries, s) && j < |s.log| && forall i :: 0 < i < |s.log| ==> s.parents[i] == i - 1
    ensures Depth(maxRetries, s, j) == j
  {
    if j > 0 {
      assert LinkedAt(maxRetries, s, j);
      ChainDepth(maxRetries, s, j - 1);
    }
  }

  /** If no message is delivered again after it was handled or retried, unless the guard skips it, a lineage has no more
      messages than there are counter values left. */
  lemma LineageBounded(decodes: string -> bool, maxRetries: int, h: History, n: nat)
    requires IsHistory(decodes, maxRetries, h) && n <= |h.deliveries| && PassedOnce(maxRetries, h)
    requires maxRetries <= MAX_INT64
    ensures var first := RetryCount(h.states[0].log[0].headers);
            |h.states[n].log| <= 1 + if first.Some? then MaxDepth(maxRetries, first.value) else 0
  {
    LogAlways(decodes, maxRetries, h, n);
    OnlyLastOpenAlways(decodes, maxRetries, h, n);
    ChainDepth(maxRetries, h.states[n], |h.states[n].log| - 1);
    RetriesBounded(decodes, maxRetries, h, n, |h.states[n].log| - 1);
  }

  /** If the order is confirmed, then once, and the last message has been passed. */
  ghost predicate OneOpen(decodes: string -> bool, maxRetries: int, h: History, n: nat)
    requires Tracks(h) && n <= |h.deliveries|
  {
    && OnlyLastOpen(maxRetries, h, n) && Confirmations(decodes, h, n) <= 1
    && (Confirmations(decodes, h, n) == 1 ==> Passed(maxRetries, h, n, |h.states[n].log| - 1))
  }

  /** A confirming delivery whose commit is not lost handles its message. */
  lemma ConfirmingPasses(decodes: string -> bool, maxRetries: int, h: History, n: nat)
    requires IsHistory(decodes, maxRetries, h) && n < |h.deliveries|
    requires ConfirmsAt(decodes, h, n) && h.deliveries[n].at.commitOk
    ensures PassesAt(maxRetries, h, n) && h.states[n + 1].log == h.states[n].log
  {
    assert DeliversAt(decodes, maxRetries, h, n);
  }

  lemma OneOpenNext(decodes: string -> bool, maxRetries: int, h: History, n: nat)
    requires IsHistory(decodes, maxRetries, h) && n < |h.deliveries| && PassedOnce(maxRetries, h)
    requires NothingLost(decodes, h)
    requires OneOpen(decodes, maxRetries, h, n)
    ensures OneOpen(decodes, maxRetries, h, n + 1)
  {
    OpenIsLast(decodes, maxRetries, h, n);
    OnlyLastOpenNext(decodes, maxRetries, h, n);
    if ConfirmsAt(decodes, h, n) {
      ConfirmingPasses(decodes, maxRetries, h, n);
    }
    PassedStays(maxRetries, h, n, h.deliveries[n].msg);
    PassedStays(maxRetries, h, n, |h.states[n].log| - 1);
    assert Confirmations(decodes, h, n + 1) == Confirmations(decodes, h, n) + One(ConfirmsAt(decodes, h, n));
  }

  lemma {:induction false} OneOpenAlways(decodes: string -> bool, maxRetries: int, h: History, n: nat)
    requires IsHistory(decodes, maxRetries, h) && n <= |h.deliveries| && PassedOnce(maxRetries, h)
    requires NothingLost(decodes, h)
    ensures OneOpen(decodes, maxRetries, h, n)
  {
    if n > 0 {
      OneOpenAlways(decodes, maxRetries, h, n - 1);
      OneOpenNext(decodes, maxRetries, h, n - 1);
    }
  }

  lemma {:induction false} SomeConfirmation(decodes: string -> bool, h: History, n: nat)
    requires Tracks(h) && n <= |h.deliveries|
    ensures Confirmations(decodes, h, n) > 0 <==> exists k :: 0 <= k < n && ConfirmsAt(decodes, h, k)
  {
    if n > 0 {
      SomeConfirmation(decodes, h, n - 1);
      if ConfirmsAt(decodes, h, n - 1) {
        assert 0 <= n - 1 < n && ConfirmsAt(decodes, h, n - 1);
      } else if k :| 0 <= k < n && ConfirmsAt(decodes, h, k) {
        assert 0 <= k < n - 1;
      }
    }
  }

  /** If compensations work, no confirming delivery loses its outer commit, and no message is delivered again after
      it was handled or retried unless the guard skips it, then a command ends with one reservation of each kind
      when some delivery confirmed the order, and with none otherwise. */
  lemma NoLossMeansBalanced(decodes: string -> bool, maxRetries: int, h: History)
    requires IsHistory(decodes, maxRetries, h) && PassedOnce(maxRetries, h) && NothingLost(decodes, h)
    requires forall k :: 0 <= k < |h.deliveries| ==> Compensable(h.deliveries[k].at.saga)
    ensures var n := |h.deliveries|;
            var confirmed := exists k :: 0 <= k < n && ConfirmsAt(decodes, h, k);
            && PayHeld(h.states[n].ledger) - PayHeld(h.states[0].ledger) == One(confirmed)
            && StockHeld(h.states[n].ledger) - StockHeld(h.states[0].ledger) == One(confirmed)
  {
    Balanced(decodes, maxRetries, h, |h.deliveries|);
    OneOpenAlways(decodes, maxRetries, h, |h.deliveries|);
    SomeConfirmation(decodes, h, |h.deliveries|);
  }

  ghost predicate Fails(decodes: string -> bool, s: State, d: Delivery, text: string) {
    && d.msg < |s.log| && Unused(s, d.place) && !Confirms(decodes, s.log[d.msg], d.at)
    && HandledAs(decodes, s.log[d.msg], IsStored(s, d.msg), d.at, s.ledger, s.ledger, Failed(text))
  }

  /** A delivery that fails without touching the ledger. */
  lemma Failing(decodes: string -> bool, maxRetries: int, h: History, d: Delivery, text: string) returns (h': History)
    requires IsHistory(decodes, maxRetries, h)
    requires Fails(decodes, h.states[|h.deliveries|], d, text)
    ensures IsHistory(decodes, maxRetries, h')
    ensures var s, outcome := h.states[|h.deliveries|], Failed(text);
            && h' == Longer(h, d, outcome, After(maxRetries, s, d, outcome, s.ledger))
            && Confirmations(decodes, h', |h'.deliveries|) == Confirmations(decodes, h, |h.deliveries|)
  {
    var s, outcome := h.states[|h.deliveries|], Failed(text);
    var t := After(maxRetries, s, d, outcome, s.ledger);
    LongerOk(decodes, maxRetries, h, d, outcome, t);
    h' := Longer(h, d, outcome, t);
    SameConfirmations(decodes, h, h', |h.deliveries|);
  }

  /** After a retriable failure the retry of the only message is in the lineage. */
  lemma RetryLands(decodes: string -> bool, maxRetries: int, s: State, d: Delivery, text: string)
    returns (retry: Message)
    requires |s.log| == 1 && d.msg == 0 && d.accepted && maxRetries <= MAX_INT64
    requires var first := RetryCount(s.log[0].headers); first.Some? && first.value < maxRetries
    ensures var t := After(maxRetries, s, d, Failed(text), s.ledger);
            t.log == [s.log[0], retry] && t.stored == s.stored && t.ledger == s.ledger
    ensures CoordinatesOf(retry) == (s.log[0].topic, d.place.0, d.place.1)
    ensures WellFormed(decodes, retry) <==> WellFormed(decodes, s.log[0])
  {
    var msg := s.log[0];
    CountInRange(msg.headers);
    retry := RetryOf(msg, RetryCount(msg.headers).value + 1, d.place);
    RetryWellFormed(decodes, msg, retry, RetryCount(msg.headers).value + 1);
  }

  /** A failed delivery of the only message, whose retry is published. */
  lemma FailsAndRetries(decodes: string -> bool, maxRetries: int, h: History, d: Delivery, text: string)
    returns (h': History, retry: Message)
    requires IsHistory(decodes, maxRetries, h) && maxRetries <= MAX_INT64
    requires Fails(decodes, h.states[|h.deliveries|], d, text) && d.accepted && |h.states[|h.deliveries|].log| == 1
    requires var first := RetryCount(h.states[|h.deliveries|].log[0].headers); first.Some? && first.value < maxRetries
    ensures IsHistory(decodes, maxRetries, h')
    ensures h' == Longer(h, d, Failed(text), After(maxRetries, h.states[|h.deliveries|], d, Failed(text),
                                                   h.states[|h.deliveries|].ledger))
    ensures var s := h.states[|h.deliveries|];
            && h'.states[|h'.deliveries|].log == [s.log[0], retry] && h'.states[|h'.deliveries|].stored == s.stored
            && CoordinatesOf(retry) == (s.log[0].topic, d.place.0, d.place.1)
            && (WellFormed(decodes, retry) <==> WellFormed(decodes, s.log[0]))
    ensures Confirmations(decodes, h', |h'.deliveries|) == Confirmations(decodes, h, |h.deliveries|)
  {
    retry := RetryLands(decodes, maxRetries, h.states[|h.deliveries|], d, text);
    h' := Failing(decodes, maxRetries, h, d, text);
  }

  lemma RefusedAs(decodes: string -> bool, msg: Message, ledger: Ledger, text: string)
    requires WellFormed(decodes, msg)
    ensures HandledAs(decodes, msg, false, Attempt(true, true, REFUSED, true), ledger, ledger, Failed(text))
    ensures !Confirms(decodes, msg, Attempt(true, true, REFUSED, true))
  {
    assert AttemptEffect(REFUSED, ledger, ledger, Some(StepFailure(true)));
  }

  /** The message meets an open breaker, and its retry is published. */
  lemma RefusedOnce(decodes: string -> bool, msg: Message, maxRetries: int) returns (h: History, retry: Message)
    requires WellFormed(decodes, msg) && maxRetries <= MAX_INT64
    requires RetryCount(msg.headers).Some? && RetryCount(msg.headers).value < maxRetries
    ensures IsHistory(decodes, maxRetries, h) && |h.deliveries| == 1 && h.states[0].log == [msg]
    ensures h.states[1].log == [msg, retry] && h.states[1].stored == {} && Confirmations(decodes, h, 1) == 0
    ensures h.deliveries[0].at == Attempt(true, true, REFUSED, true) && WellFormed(decodes, retry)
    ensures CoordinatesOf(retry) == (msg.topic, msg.partition, msg.offset + 1)
  {
    var start := Ledger("", "", 0, 0, 0, 0, 0, 0);
    UndeliveredOk(decodes, maxRetries, msg, start);
    h := Undelivered(msg, start);
    var d := Delivery(0, Attempt(true, true, REFUSED, true), (msg.partition, msg.offset + 1), true, false);
    RefusedAs(decodes, msg, start, "circuit breaker is open");
    h, retry := FailsAndRetries(decodes, maxRetries, h, d, "circuit breaker is open");
  }

  /** ... and then the message is delivered again and confirms the order. */
  lemma RefusedThenConfirmed(decodes: string -> bool, msg: Message, maxRetries: int)
    returns (h: History, retry: Message)
    requires WellFormed(decodes, msg) && maxRetries <= MAX_INT64
    requires RetryCount(msg.headers).Some? && RetryCount(msg.headers).value < maxRetries
    ensures IsHistory(decodes, maxRetries, h) && |h.deliveries| == 2 && Confirmations(decodes, h, 2) == 1
    ensures h.states[0].log == [msg] && h.states[2].log == [msg, retry] && h.states[2].stored == {CoordinatesOf(msg)}
    ensures CoordinatesOf(retry) == (msg.topic, msg.partition, msg.offset + 1) && WellFormed(decodes, retry)
    ensures forall k :: 0 <= k < 2 ==> h.deliveries[k].at.commitOk && Compensable(h.deliveries[k].at.saga)
  {
    h, retry := RefusedOnce(decodes, msg, maxRetries);
    var smooth := Attempt(true, true, SMOOTH, true);
    h := Confirming(decodes, maxRetries, h, Delivery(0, smooth, (msg.partition, msg.offset + 2), true, false));
  }

  /** Even without lost commits the order can be confirmed twice: the saga meets an open breaker, the retry is
      published, the message is delivered again and confirms, and so does the retry. */
  lemma RetryBesideRepeat(decodes: string -> bool, msg: Message, maxRetries: int) returns (h: History)
    requires WellFormed(decodes, msg) && maxRetries <= MAX_INT64
    requires RetryCount(msg.headers).Some? && RetryCount(msg.headers).value < maxRetries
    ensures IsHistory(decodes, maxRetries, h) && h.states[0].log == [msg] && |h.deliveries| == 3
    ensures forall k :: 0 <= k < 3 ==> h.deliveries[k].at.commitOk && Compensable(h.deliveries[k].at.saga)
    ensures Confirmations(decodes, h, 3) == 2
  {
    var retry;
    h, retry := RefusedThenConfirmed(decodes, msg, maxRetries);
    var smooth := Attempt(true, true, SMOOTH, true);
    h := Confirming(decodes, maxRetries, h, Delivery(1, smooth, (msg.partition, msg.offset + 3), true, false));
  }

  lemma HandledOnce(decodes: string -> bool, msg: Message, maxRetries: int) returns (h: History)
    requires WellFormed(decodes, msg) && maxRetries <= MAX_INT64
    ensures IsHistory(decodes, maxRetries, h) && |h.deliveries| == 1 && Confirmations(decodes, h, 1) == 1
    ensures h.states[0].log == h.states[1].log == [msg] && h.states[1].stored == {CoordinatesOf(msg)}
    ensures h.outcomes[0].Handled? && h.deliveries[0].at.commitOk
  {
    var start := Ledger("", "", 0, 0, 0, 0, 0, 0);
    UndeliveredOk(decodes, maxRetries, msg, start);
    h := Undelivered(msg, start);
    var smooth := Attempt(true, true, SMOOTH, true);
    h := Confirming(decodes, maxRetries, h, Delivery(0, smooth, (msg.partition, msg.offset + 1), true, false));
  }

  lemma RetriedAfterHandled(decodes: string -> bool, msg: Message, maxRetries: int) returns (h: History, retry: Message)
    requires WellFormed(decodes, msg) && maxRetries <= MAX_INT64
    requires RetryCount(msg.headers).Some? && RetryCount(msg.headers).value < maxRetries
    ensures IsHistory(decodes, maxRetries, h) && |h.deliveries| == 2 && Confirmations(decodes, h, 2) == 1
    ensures h.states[0].log == [msg] && h.states[2].log == [msg, retry] && h.states[2].stored == {CoordinatesOf(msg)}
    ensures CoordinatesOf(retry) == (msg.topic, msg.partition, msg.offset + 2) && WellFormed(decodes, retry)
    ensures h.outcomes[0].Handled? && forall k :: 0 <= k < 2 ==> h.deliveries[k].at.commitOk
  {
    h := HandledOnce(decodes, msg, maxRetries);
    var d := Delivery(0, Attempt(false, true, SMOOTH, true), (msg.partition, msg.offset + 2), true, false);
    h, retry := FailsAndRetries(decodes, maxRetries, h, d, "begin");
  }

  /** The same happens if the message was handled and the transaction of the guard fails when it is delivered again: the
      retry of a message that is done is published, and confirms the order once more. */
  lemma RetryAfterHandled(decodes: string -> bool, msg: Message, maxRetries: int) returns (h: History)
    requires WellFormed(decodes, msg) && maxRetries <= MAX_INT64
    requires RetryCount(msg.headers).Some? && RetryCount(msg.headers).value < maxRetries
    ensures IsHistory(decodes, maxRetries, h) && h.states[0].log == [msg] && |h.deliveries| == 3
    ensures h.outcomes[0].Handled? && forall k :: 0 <= k < 3 ==> h.deliveries[k].at.commitOk
    ensures Confirmations(decodes, h, 3) == 2
  {
    var retry;
    h, retry := RetriedAfterHandled(decodes, msg, maxRetries);
    var smooth := Attempt(true, true, SMOOTH, true);
    h := Confirming(decodes, maxRetries, h, Delivery(1, smooth, (msg.partition, msg.offset + 3), true, false));
  }

  /** In some history without a lost commit a command is confirmed more than once. */
  ghost predicate CanConfirmTwiceLossless(decodes: string -> bool, msg: Message, maxRetries: int) {
    exists h: History ::
      && IsHistory(decodes, maxRetries, h) && h.states[0].log == [msg] && NothingLost(decodes, h)
      && Confirmations(decodes, h, |h.deliveries|) >= 2
  }

  lemma {:induction false} NothingLostCounts(decodes: string -> bool, h: History, n: nat)
    requires Tracks(h) && n <= |h.deliveries| && NothingLost(decodes, h)
    ensures LostConfirmations(decodes, h, n) == 0
  {
    if n > 0 {
      NothingLostCounts(decodes, h, n - 1);
    }
  }

  /** A message that cannot be retried is alone in its lineage. */
  lemma AloneWithoutRetries(decodes: string -> bool, maxRetries: int, h: History, n: nat)
    requires IsHistory(decodes, maxRetries, h) && n <= |h.deliveries| && maxRetries <= MAX_INT64
    requires var first := RetryCount(h.states[0].log[0].headers); first.None? || first.value >= maxRetries
    ensures |h.states[n].log| == 1
  {
    LogAlways(decodes, maxRetries, h, n);
    if |h.states[n].log| > 1 {
      KeptAlong(maxRetries, h.states[n], 1);
    }
  }

  lemma LosslessOnce(decodes: string -> bool, maxRetries: int, h: History)
    requires IsHistory(decodes, maxRetries, h) && maxRetries <= MAX_INT64 && NothingLost(decodes, h)
    requires var first := h.states[0].log[0];
             !(&& WellFormed(decodes, first) && RetryCount(first.headers).Some?
               && RetryCount(first.headers).value < maxRetries)
    ensures Confirmations(decodes, h, |h.deliveries|) <= 1
  {
    var n := |h.deliveries|;
    if !WellFormed(decodes, h.states[0].log[0]) {
      MalformedNeverConfirms(decodes, maxRetries, h, n);
    } else {
      AloneWithoutRetries(decodes, maxRetries, h, n);
      ConfirmationsBounded(decodes, maxRetries, h, n);
      NothingLostCounts(decodes, h, n);
      StoredMore(h.states[n].log, h.states[n].stored, h.states[n].stored);
    }
  }

  /** If no confirming delivery loses its outer commit, a command can be confirmed more than once exactly when it can be
      processed and has a retry left. */
  lemma LosslessTwiceExactly(decodes: string -> bool, msg: Message, maxRetries: int)
    requires maxRetries <= MAX_INT64
    ensures CanConfirmTwiceLossless(decodes, msg, maxRetries) <==>
            WellFormed(decodes, msg) && RetryCount(msg.headers).Some? && RetryCount(msg.headers).value < maxRetries
  {
    if WellFormed(decodes, msg) && RetryCount(msg.headers).Some? && RetryCount(msg.headers).value < maxRetries {
      var h := RetryBesideRepeat(decodes, msg, maxRetries);
      assert NothingLost(decodes, h);
    } else {
      forall h: History | IsHistory(decodes, maxRetries, h) && h.states[0].log == [msg] && NothingLost(decodes, h)
        ensures Confirmations(decodes, h, |h.deliveries|) <= 1
      {
        LosslessOnce(decodes, maxRetries, h);
      }
    }
  }
}
