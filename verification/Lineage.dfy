/** The whole life of one order command: the deliveries of its message and of the retries published for it, until all
    are handled or dead.  Any message may be delivered again at any time. */
module Lineage {
  import opened HandlerChain
  import Idempotency
  import opened Options
  import opened OrderSaga
  import opened Text

  /** What the environment decides for one run of the handler chain: whether the outer transaction begins, whether the
      statement of the idempotency key succeeds, what the saga meets, and whether the outer transaction commits. */
  datatype Attempt = Attempt(beginOk: bool, insertOk: bool, saga: Env, commitOk: bool)

  const ORDER_ID_KEY := "order-id"

  /** The message can be processed: its payload decodes and it names an order. */
  predicate WellFormed(decodes: string -> bool, msg: Message) {
    decodes(msg.value) && HeaderValue(msg.headers, ORDER_ID_KEY) != ""
  }

  /** A retry is as well-formed as its message. */
  lemma RetryWellFormed(decodes: string -> bool, msg: Message, next: Message, retries: int)
    requires -MAX_INT64 - 1 <= retries <= MAX_INT64
    requires next.value == msg.value && next.headers == Bumped(msg.headers, retries)
    ensures WellFormed(decodes, next) <==> WellFormed(decodes, msg)
  {
    BumpedReadsBack(msg.headers, retries);
    OthersKeepValues(msg.headers, ORDER_ID_KEY);
    OthersKeepValues(next.headers, ORDER_ID_KEY);
  }

  /** The attempt gets as far as the saga, if the message is new. */
  predicate Starts(decodes: string -> bool, msg: Message, at: Attempt) {
    at.beginOk && at.insertOk && WellFormed(decodes, msg)
  }

  predicate Confirms(decodes: string -> bool, msg: Message, at: Attempt) {
    Starts(decodes, msg, at) && OrderConfirmed(at.saga)
  }

  /** What an attempt does to the ledger and how it ends.  A message whose key is stored is skipped; for any other
      only an open breaker or the database makes a failure retriable. */
  ghost predicate HandledAs(decodes: string -> bool, msg: Message, stored: bool, at: Attempt, before: Ledger,
                            after: Ledger, outcome: Outcome) {
    if stored then
      && after == before && !outcome.NonRetriable?
      && (outcome.Handled? <==> at.beginOk && at.insertOk && at.commitOk)
    else
      && (if Starts(decodes, msg, at) then exists err :: AttemptEffect(at.saga, before, after, err)
          else after == before)
      && (outcome.NonRetriable? <==> at.beginOk && at.insertOk && !WellFormed(decodes, msg))
      && (outcome.Handled? <==>
            Starts(decodes, msg, at) && at.commitOk && (OrderConfirmed(at.saga) || !FailsOpen(at.saga)))
  }

  /** The business handler inside its guard. */
  method Process(decodes: string -> bool, msg: Message, stored: bool, at: Attempt, before: Ledger)
    returns (outcome: Outcome, after: Ledger)
    ensures HandledAs(decodes, msg, stored, at, before, after, outcome)
    ensures outcome.NonRetriable? <==>
              at.beginOk && at.insertOk && !stored
              && (!decodes(msg.value) || HeaderValue(msg.headers, "order-id") == "")
  {
    after := before;
    if !at.beginOk || !at.insertOk {
      return Failed("idempotency check"), after;
    }
    if !stored {
      if !decodes(msg.value) {
        return NonRetriable("invalid payload"), after;
      }
      var order := HeaderValue(msg.headers, ORDER_ID_KEY);
      if order == "" {
        return NonRetriable("missing order-id header"), after;
      }
      var err;
      err, after := ProcessCommand(at.saga, before);
      if err.Some? && err.value.open {
        return Failed("circuit breaker is open"), after;
      }
    }
    if !at.commitOk {
      return Failed("tx commit"), after;
    }
    outcome := Outcome.Handled;
  }

  // ----- Deliveries -----

  /** One delivery of message `msg` of the lineage.  If a message is published for it, `accepted` is what the
      producer reports, `late` says that the broker has it although the producer reports an error, and `place` is
      the partition and offset at which a retry comes back. */
  datatype Delivery = Delivery(msg: nat, at: Attempt, place: (int, int), accepted: bool, late: bool) {
    predicate Lands() { accepted || late }
  }

  /** Topic, partition and offset of a message: what its idempotency key is printed from. */
  type Coordinates = (string, int, int)

  function CoordinatesOf(msg: Message): Coordinates { (msg.topic, msg.partition, msg.offset) }

  /** Two messages have the same idempotency key exactly when they have the same coordinates, so the table of stored
      keys can be taken for a table of coordinates. */
  lemma KeyMeansCoordinates(a: Message, b: Message)
    ensures Idempotency.Key(a.topic, a.partition, a.offset) == Idempotency.Key(b.topic, b.partition, b.offset) <==>
            CoordinatesOf(a) == CoordinatesOf(b)
  {
    if Idempotency.Key(a.topic, a.partition, a.offset) == Idempotency.Key(b.topic, b.partition, b.offset) {
      Idempotency.KeyInjective(a.topic, a.partition, a.offset, b.topic, b.partition, b.offset);
    }
  }

  /** The messages of the lineage, the first one and every retry; which message each is a retry of; those whose key is
      stored; and the ledger of the order. */
  datatype State = State(log: seq<Message>, parents: seq<nat>, stored: set<Coordinates>, ledger: Ledger)

  function Start(first: Message, ledger: Ledger): State {
    State([first], [0], {}, ledger)
  }

  predicate IsStored(s: State, i: nat)
    requires i < |s.log|
  {
    CoordinatesOf(s.log[i]) in s.stored
  }

  /** What the retry of a message looks like when it comes back. */
  function RetryOf(msg: Message, retries: int, place: (int, int)): Message {
    Message(msg.topic, place.0, place.1, msg.key, msg.value, Bumped(msg.headers, retries))
  }

  /** The delivery puts a retry into the lineage. */
  predicate Retries(maxRetries: int, s: State, d: Delivery, outcome: Outcome)
    requires d.msg < |s.log|
  {
    React(s.log[d.msg].headers, outcome, maxRetries).Republish? && d.Lands()
  }

  /** The lineage after a delivery: a handled message has its key stored, a rolled-back one has not. */
  function After(maxRetries: int, s: State, d: Delivery, outcome: Outcome, ledger: Ledger): State
    requires d.msg < |s.log|
  {
    var msg := s.log[d.msg];
    var reaction := React(msg.headers, outcome, maxRetries);
    State(if Retries(maxRetries, s, d, outcome) then s.log + [RetryOf(msg, reaction.retries, d.place)] else s.log,
          if Retries(maxRetries, s, d, outcome) then s.parents + [d.msg] else s.parents,
          if outcome.Handled? then s.stored + {CoordinatesOf(msg)} else s.stored,
          ledger)
  }

  /** The broker gives every message a place of its own. */
  predicate Unused(s: State, place: (int, int)) {
    forall j :: 0 <= j < |s.log| ==> (s.log[j].partition, s.log[j].offset) != place
  }

  /** Delivery `d` takes the lineage from `s` to `s'`. */
  ghost predicate Delivers(decodes: string -> bool, maxRetries: int, s: State, d: Delivery, outcome: Outcome,
                           s': State) {
    && d.msg < |s.log| && (Retries(maxRetries, s, d, outcome) ==> Unused(s, d.place))
    && HandledAs(decodes, s.log[d.msg], IsStored(s, d.msg), d.at, s.ledger, s'.ledger, outcome)
    && s' == After(maxRetries, s, d, outcome, s'.ledger)
  }

  /** Delivery `k` ends with `outcomes[k]` and leads from `states[k]` to `states[k + 1]`. */
  datatype History = History(deliveries: seq<Delivery>, outcomes: seq<Outcome>, states: seq<State>)

  /** Every delivery is of a message that is there. */
  predicate Tracks(h: History) {
    && |h.deliveries| == |h.outcomes| == |h.states| - 1
    && forall k :: 0 <= k < |h.deliveries| ==> h.deliveries[k].msg < |h.states[k].log|
  }

  ghost predicate DeliversAt(decodes: string -> bool, maxRetries: int, h: History, k: nat) {
    k < |h.deliveries| && k < |h.outcomes| && k + 1 < |h.states| ==>
      Delivers(decodes, maxRetries, h.states[k], h.deliveries[k], h.outcomes[k], h.states[k + 1])
  }

  /** Any number of deliveries of the messages of one command, in any order. */
  ghost predicate IsHistory(decodes: string -> bool, maxRetries: int, h: History) {
    && Tracks(h)
    && (exists first, ledger :: h.states[0] == Start(first, ledger))
    && forall k: nat :: DeliversAt(decodes, maxRetries, h, k)
  }

  /** The history of a command that has not been delivered yet. */
  function Undelivered(first: Message, ledger: Ledger): History {
    History([], [], [Start(first, ledger)])
  }

  lemma UndeliveredOk(decodes: string -> bool, maxRetries: int, first: Message, ledger: Ledger)
    ensures IsHistory(decodes, maxRetries, Undelivered(first, ledger))
  {
    var h := Undelivered(first, ledger);
    assert h.states[0] == Start(first, ledger);
    assert forall k: nat :: DeliversAt(decodes, maxRetries, h, k);
  }

  /** One more delivery. */
  function Longer(h: History, d: Delivery, outcome: Outcome, s: State): History {
    History(h.deliveries + [d], h.outcomes + [outcome], h.states + [s])
  }

  lemma LongerOk(decodes: string -> bool, maxRetries: int, h: History, d: Delivery, outcome: Outcome, s: State)
    requires IsHistory(decodes, maxRetries, h) && Delivers(decodes, maxRetries, h.states[|h.deliveries|], d, outcome, s)
    ensures IsHistory(decodes, maxRetries, Longer(h, d, outcome, s))
  {
    var longer := Longer(h, d, outcome, s);
    assert longer.states[0] == h.states[0];
    forall k: nat ensures DeliversAt(decodes, maxRetries, longer, k) {
      assert DeliversAt(decodes, maxRetries, h, k);
    }
  }

  // ----- The whole chain as code -----

  /** The message that a reaction asks the producer to publish. */
  function Answer(pill: PoisonPill, msg: Message, reaction: Reaction, failedAt: string): seq<Publication> {
    match reaction
    case DeadLetter(error) => [Publication(pill.dlqTopic, msg.key, msg.value, Enriched(msg, error, failedAt))]
    case Republish(retries) => [Publication(msg.topic, msg.key, msg.value, Bumped(msg.headers, retries))]
    case _ => []
  }

  /** The whole handler; `stored` says whether the key of the message is stored, `accepted` whether the producer
      takes what is published. */
  method HandleMessage(pill: PoisonPill, decodes: string -> bool, msg: Message, stored: bool, at: Attempt,
                       before: Ledger, failedAt: string, accepted: bool)
    returns (outcome: Outcome, after: Ledger, reply: HandlerChain.Reply)
    modifies pill`published
    ensures HandledAs(decodes, msg, stored, at, before, after, outcome)
    ensures var reaction := React(msg.headers, outcome, pill.maxRetries);
            && (reply.Error? <==> reaction.Unreadable? || (!reaction.NoReaction? && !accepted))
            && pill.published == old(pill.published) + if accepted then Answer(pill, msg, reaction, failedAt) else []
  {
    outcome, after := Process(decodes, msg, stored, at, before);
    reply := pill.Handle(msg, outcome, failedAt, accepted);
  }

  /** What the producer has acknowledged in the first `n` deliveries, in their order. */
  ghost function Acknowledged(pill: PoisonPill, h: History, failedAt: string, n: nat): seq<Publication>
    requires Tracks(h) && n <= |h.deliveries|
  {
    if n == 0 then []
    else
      var msg := h.states[n - 1].log[h.deliveries[n - 1].msg];
      var reaction := React(msg.headers, h.outcomes[n - 1], pill.maxRetries);
      Acknowledged(pill, h, failedAt, n - 1)
        + (if h.deliveries[n - 1].accepted then Answer(pill, msg, reaction, failedAt) else [])
  }

  lemma {:induction false} AcknowledgedBefore(pill: PoisonPill, h: History, failedAt: string, d: Delivery,
                                              outcome: Outcome, s: State, n: nat)
    requires Tracks(h) && Tracks(Longer(h, d, outcome, s)) && n <= |h.deliveries|
    ensures Acknowledged(pill, Longer(h, d, outcome, s), failedAt, n) == Acknowledged(pill, h, failedAt, n)
  {
    if n > 0 {
      AcknowledgedBefore(pill, h, failedAt, d, outcome, s, n - 1);
    }
  }

  lemma AcknowledgedNext(pill: PoisonPill, h: History, failedAt: string, d: Delivery, outcome: Outcome, s: State)
    requires Tracks(h) && Tracks(Longer(h, d, outcome, s))
    ensures d.msg < |h.states[|h.deliveries|].log|
    ensures var reaction := React(h.states[|h.deliveries|].log[d.msg].headers, outcome, pill.maxRetries);
            var answer := Answer(pill, h.states[|h.deliveries|].log[d.msg], reaction, failedAt);
            Acknowledged(pill, Longer(h, d, outcome, s), failedAt, |h.deliveries| + 1) ==
            Acknowledged(pill, h, failedAt, |h.deliveries|) + if d.accepted then answer else []
  {
    var longer, n := Longer(h, d, outcome, s), |h.deliveries|;
    assert longer.deliveries[n] == d && longer.outcomes[n] == outcome && longer.states[n] == h.states[n];
    AcknowledgedBefore(pill, h, failedAt, d, outcome, s, n);
  }

  /** At most one message has been added, at the given place. */
  ghost predicate Gains(log: seq<Message>, log': seq<Message>, place: (int, int)) {
    log' == log || (exists msg :: log' == log + [msg] && (msg.partition, msg.offset) == place)
  }

  lemma AfterGains(maxRetries: int, s: State, d: Delivery, outcome: Outcome, ledger: Ledger)
    requires d.msg < |s.log|
    ensures Gains(s.log, After(maxRetries, s, d, outcome, ledger).log, d.place)
  {
    if Retries(maxRetries, s, d, outcome) {
      var retry := RetryOf(s.log[d.msg], React(s.log[d.msg].headers, outcome, maxRetries).retries, d.place);
      assert s.log + [retry] == After(maxRetries, s, d, outcome, ledger).log;
    }
  }

  /** The producer has acknowledged, after `base`, the answers of the history. */
  ghost predicate AllSent(pill: PoisonPill, h: History, failedAt: string, base: seq<Publication>)
    requires Tracks(h)
    reads pill
  {
    pill.published == base + Acknowledged(pill, h, failedAt, |h.deliveries|)
  }

  /** What one delivery does to the history and to the producer. */
  lemma DeliveryDone(pill: PoisonPill, decodes: string -> bool, h: History, d: Delivery, failedAt: string,
                     outcome: Outcome, after: Ledger, base: seq<Publication>, before: seq<Publication>)
    requires IsHistory(decodes, pill.maxRetries, h) && before == base + Acknowledged(pill, h, failedAt, |h.deliveries|)
    requires d.msg < |h.states[|h.deliveries|].log| && Unused(h.states[|h.deliveries|], d.place)
    requires var s := h.states[|h.deliveries|];
             HandledAs(decodes, s.log[d.msg], IsStored(s, d.msg), d.at, s.ledger, after, outcome)
    ensures var s := h.states[|h.deliveries|];
            var t := After(pill.maxRetries, s, d, outcome, after);
            var h' := Longer(h, d, outcome, t);
            var answer := Answer(pill, s.log[d.msg], React(s.log[d.msg].headers, outcome, pill.maxRetries), failedAt);
            && IsHistory(decodes, pill.maxRetries, h') && Gains(s.log, t.log, d.place)
            && before + (if d.accepted then answer else []) ==
               base + Acknowledged(pill, h', failedAt, |h'.deliveries|)
  {
    var s := h.states[|h.deliveries|];
    var t := After(pill.maxRetries, s, d, outcome, after);
    LongerOk(decodes, pill.maxRetries, h, d, outcome, t);
    AcknowledgedNext(pill, h, failedAt, d, outcome, t);
    AfterGains(pill.maxRetries, s, d, outcome, after);
  }

  /** One delivery of any message of the lineage. */
  method Deliver(pill: PoisonPill, decodes: string -> bool, h: History, d: Delivery, failedAt: string,
                 ghost base: seq<Publication>)
    returns (h': History, reply: HandlerChain.Reply)
    requires IsHistory(decodes, pill.maxRetries, h) && AllSent(pill, h, failedAt, base)
    requires d.msg < |h.states[|h.deliveries|].log| && Unused(h.states[|h.deliveries|], d.place)
    modifies pill`published
    ensures IsHistory(decodes, pill.maxRetries, h') && AllSent(pill, h', failedAt, base)
    ensures h'.deliveries == h.deliveries + [d] && h'.states[..|h.states|] == h.states
    ensures Gains(h.states[|h.deliveries|].log, h'.states[|h'.deliveries|].log, d.place)
    ensures var msg := h.states[|h.deliveries|].log[d.msg];
            var reaction := React(msg.headers, h'.outcomes[|h.deliveries|], pill.maxRetries);
            reply.Error? <==> reaction.Unreadable? || (!reaction.NoReaction? && !d.accepted)
  {
    var s := h.states[|h.deliveries|];
    ghost var before := pill.published;
    var outcome, after;
    outcome, after, reply :=
      HandleMessage(pill, decodes, s.log[d.msg], IsStored(s, d.msg), d.at, s.ledger, failedAt, d.accepted);
    DeliveryDone(pill, decodes, h, d, failedAt, outcome, after, base, before);
    h' := Longer(h, d, outcome, After(pill.maxRetries, s, d, outcome, after));
  }

  /** The environment never gives two messages the same place. */
  predicate Fresh(first: Message, schedule: seq<Delivery>) {
    && (forall i :: 0 <= i < |schedule| ==> schedule[i].place != (first.partition, first.offset))
    && (forall i, j :: 0 <= i < j < |schedule| ==> schedule[i].place != schedule[j].place)
  }

  /** Where the messages of the lineage are: the first one, and retries of the first `n` scheduled deliveries. */
  predicate Placed(first: Message, schedule: seq<Delivery>, n: nat, log: seq<Message>)
    requires n <= |schedule|
  {
    forall i :: 0 <= i < |log| ==>
      var place := (log[i].partition, log[i].offset);
      place == (first.partition, first.offset) || exists j :: 0 <= j < n && schedule[j].place == place
  }

  lemma PlacedNext(first: Message, schedule: seq<Delivery>, n: nat, log: seq<Message>, log': seq<Message>)
    requires n < |schedule| && Placed(first, schedule, n, log) && Gains(log, log', schedule[n].place)
    ensures Placed(first, schedule, n + 1, log') && |log'| >= |log|
  {
    forall i | 0 <= i < |log'|
      ensures var place := (log'[i].partition, log'[i].offset);
              place == (first.partition, first.offset) || exists j :: 0 <= j < n + 1 && schedule[j].place == place
    {
      if i < |log| {
        assert log'[i] == log[i];
      } else {
        assert schedule[n].place == (log'[i].partition, log'[i].offset);
      }
    }
  }

  lemma PlaceUnused(first: Message, schedule: seq<Delivery>, n: nat, s: State)
    requires Fresh(first, schedule) && n < |schedule| && Placed(first, schedule, n, s.log)
    ensures Unused(s, schedule[n].place)
  {
    forall i | 0 <= i < |s.log| ensures (s.log[i].partition, s.log[i].offset) != schedule[n].place {
      var place := (s.log[i].partition, s.log[i].offset);
      if place != (first.partition, first.offset) {
        var j :| 0 <= j < n && schedule[j].place == place;
      }
    }
  }

  /** Deliver the messages of a command as the broker schedules them: the first one and its retries, any of them
      again and again.  What is scheduled before it exists is not delivered. */
  method Consume(pill: PoisonPill, decodes: string -> bool, first: Message, schedule: seq<Delivery>, failedAt: string,
                 ledger: Ledger) returns (h: History)
    requires Fresh(first, schedule)
    modifies pill`published
    ensures IsHistory(decodes, pill.maxRetries, h) && h.states[0] == Start(first, ledger)
    ensures AllSent(pill, h, failedAt, old(pill.published))
    ensures (forall k :: 0 <= k < |schedule| ==> schedule[k].msg == 0) ==> h.deliveries == schedule
  {
    ghost var base := pill.published;
    UndeliveredOk(decodes, pill.maxRetries, first, ledger);
    h := Undelivered(first, ledger);
    for k := 0 to |schedule|
      invariant IsHistory(decodes, pill.maxRetries, h) && h.states[0] == Start(first, ledger)
      invariant AllSent(pill, h, failedAt, base)
      invariant Placed(first, schedule, k, h.states[|h.deliveries|].log) && |h.states[|h.deliveries|].log| > 0
      invariant (forall j :: 0 <= j < k ==> schedule[j].msg == 0) ==> h.deliveries == schedule[..k]
    {
      var s := h.states[|h.deliveries|];
      var d := schedule[k];
      if d.msg < |s.log| {
        PlaceUnused(first, schedule, k, s);
        var reply;
        h, reply := Deliver(pill, decodes, h, d, failedAt, base);
        PlacedNext(first, schedule, k, s.log, h.states[|h.deliveries|].log);
      }
    }
  }
}
