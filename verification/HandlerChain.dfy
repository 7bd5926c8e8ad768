/** The handler chain around the business handler: what happens to a message whose handling failed. */
module HandlerChain {
  import opened Options
  import opened Text

  datatype Header = Header(key: string, value: string)

  datatype Message =
    Message(topic: string, partition: int, offset: int, key: string, value: string, headers: seq<Header>)

  /** How the inner handler ended; `Failed` is any error that is not marked as non-retriable. */
  datatype Outcome = Handled | Failed(text: string) | NonRetriable(text: string)

  const RETRY_KEY := "x-retry-count"

  /** The retry counter of a message: the first such header, 0 if there is none, nothing if it cannot be read. */
  function RetryCount(headers: seq<Header>): Option<int> {
    if headers == [] then Some(0)
    else if headers[0].key == RETRY_KEY then Scan(headers[0].value)
    else RetryCount(headers[1..])
  }

  function Others(headers: seq<Header>): seq<Header> {
    if headers == [] then []
    else (if headers[0].key == RETRY_KEY then [] else [headers[0]]) + Others(headers[1..])
  }

  function Bumped(headers: seq<Header>, retries: int): seq<Header> {
    Others(headers) + [Header(RETRY_KEY, Print(retries))]
  }

  /** What a dead letter says about where it came from and why. */
  function Origin(topic: string, partition: string, offset: string, error: string, failedAt: string): seq<Header> {
    [Header("x-original-topic", topic),
     Header("x-original-partition", partition),
     Header("x-original-offset", offset),
     Header("x-error", error),
     Header("x-failed-at", failedAt)]
  }

  function Enriched(msg: Message, error: string, failedAt: string): seq<Header> {
    msg.headers + Origin(msg.topic, Print(msg.partition), Print(msg.offset), error, failedAt)
  }

  /** What the chain does with an outcome: nothing, give up because the counter cannot be read, send the message to
      the dead-letter topic, or publish it again with this counter. */
  datatype Reaction = NoReaction | Unreadable | DeadLetter(error: string) | Republish(retries: int)

  function React(headers: seq<Header>, outcome: Outcome, maxRetries: int): Reaction {
    if outcome.Handled? then NoReaction
    else
      match RetryCount(headers)
      case None => Unreadable
      case Some(c) =>
        if outcome.NonRetriable? || c >= maxRetries then DeadLetter(outcome.text) else Republish(c + 1)
  }

  // ----- Laws -----

  lemma {:induction false} OthersConcat(a: seq<Header>, b: seq<Header>)
    ensures Others(a + b) == Others(a) + Others(b)
  {
    if a == [] {
      assert a + b == b;
    } else {
      assert (a + b)[1..] == a[1..] + b;
      OthersConcat(a[1..], b);
    }
  }

  lemma {:induction false} OthersTwice(headers: seq<Header>)
    ensures Others(Others(headers)) == Others(headers)
  {
    if headers != [] {
      OthersTwice(headers[1..]);
      if headers[0].key != RETRY_KEY {
        assert Others(headers)[1..] == Others(headers[1..]);
      } else {
        assert Others(headers) == Others(headers[1..]);
      }
    }
  }

  lemma CountOfFirst(head: Header, tail: seq<Header>)
    ensures RetryCount([head] + tail) == if head.key == RETRY_KEY then Scan(head.value) else RetryCount(tail)
  {
    assert ([head] + tail)[1..] == tail;
  }

  lemma {:induction false} CountAfterOthers(headers: seq<Header>, last: Header)
    requires last.key == RETRY_KEY
    ensures RetryCount(Others(headers) + [last]) == Scan(last.value)
  {
    if headers == [] {
      CountOfFirst(last, []);
      assert Others(headers) + [last] == [last] + [];
    } else {
      CountAfterOthers(headers[1..], last);
      if headers[0].key != RETRY_KEY {
        CountOfFirst(headers[0], Others(headers[1..]) + [last]);
        assert Others(headers) + [last] == [headers[0]] + (Others(headers[1..]) + [last]);
      } else {
        assert Others(headers) == Others(headers[1..]);
      }
    }
  }

  /** Reading the counter of a re-published message returns the number that was written, and all other headers are
      kept in their order. */
  lemma BumpedReadsBack(headers: seq<Header>, retries: int)
    requires -MAX_INT64 - 1 <= retries <= MAX_INT64
    ensures RetryCount(Bumped(headers, retries)) == Some(retries)
    ensures Others(Bumped(headers, retries)) == Others(headers)
  {
    var last := Header(RETRY_KEY, Print(retries));
    CountAfterOthers(headers, last);
    ScanPrint(retries);
    OthersConcat(Others(headers), [last]);
    OthersTwice(headers);
    assert Others([last]) == [];
  }

  lemma {:induction false} CountInRange(headers: seq<Header>)
    ensures RetryCount(headers).Some? ==> -MAX_INT64 - 1 <= RetryCount(headers).value <= MAX_INT64
  {
    if headers != [] {
      CountInRange(headers[1..]);
    }
  }

  /** The first value of a header, or the empty string. */
  function HeaderValue(headers: seq<Header>, key: string): string {
    if headers == [] then ""
    else if headers[0].key == key then headers[0].value
    else HeaderValue(headers[1..], key)
  }

  /** What a retry keeps of a header that is not the counter. */
  lemma {:induction false} OthersKeepValues(headers: seq<Header>, key: string)
    requires key != RETRY_KEY
    ensures HeaderValue(Others(headers), key) == HeaderValue(headers, key)
  {
    if headers != [] {
      OthersKeepValues(headers[1..], key);
      if headers[0].key != RETRY_KEY {
        assert Others(headers)[1..] == Others(headers[1..]);
      } else {
        assert Others(headers) == Others(headers[1..]);
      }
    }
  }

  lemma {:induction false} NoCounter(headers: seq<Header>)
    requires forall i :: 0 <= i < |headers| ==> headers[i].key != RETRY_KEY
    ensures Others(headers) == headers && RetryCount(headers) == Some(0)
  {
    if headers != [] {
      NoCounter(headers[1..]);
    }
  }

  lemma {:induction false} CountOfPrefix(headers: seq<Header>, added: seq<Header>)
    requires RetryCount(added) == Some(0)
    ensures RetryCount(headers + added) == RetryCount(headers)
  {
    if headers == [] {
      assert headers + added == added;
    } else {
      assert (headers + added)[1..] == headers[1..] + added;
      CountOfPrefix(headers[1..], added);
    }
  }

  /** The dead letter carries all headers of the message as a prefix, and where it came from. */
  lemma DeadLetterKeepsHeaders(msg: Message, error: string, failedAt: string)
    ensures var e := Enriched(msg, error, failedAt);
            && msg.headers <= e && RetryCount(e) == RetryCount(msg.headers)
            && Others(e) == Others(msg.headers) + e[|msg.headers|..]
  {
    var added := Enriched(msg, error, failedAt)[|msg.headers|..];
    assert Enriched(msg, error, failedAt) == msg.headers + added;
    OthersConcat(msg.headers, added);
    NoCounter(added);
    CountOfPrefix(msg.headers, added);
  }

  /** Headers with other keys do not matter for a lookup. */
  lemma {:induction false} Skip(headers: seq<Header>, key: string, n: nat)
    requires n <= |headers| && forall i :: 0 <= i < n ==> headers[i].key != key
    ensures HeaderValue(headers, key) == HeaderValue(headers[n..], key)
  {
    if n > 0 {
      Skip(headers[1..], key, n - 1);
      assert headers[1..][n - 1..] == headers[n..];
    }
  }

  /** The five headers of a dead letter are found by their names. */
  lemma OriginFound(topic: string, partition: string, offset: string, error: string, failedAt: string)
    ensures var added := Origin(topic, partition, offset, error, failedAt);
            && HeaderValue(added, "x-original-topic") == topic
            && HeaderValue(added, "x-original-partition") == partition
            && HeaderValue(added, "x-original-offset") == offset
            && HeaderValue(added, "x-error") == error
            && HeaderValue(added, "x-failed-at") == failedAt
  {
    var added := Origin(topic, partition, offset, error, failedAt);
    assert forall i :: 0 <= i < |added| ==> HeaderValue(added[i..], added[i].key) == added[i].value;
    Skip(added, "x-original-partition", 1);
    Skip(added, "x-original-offset", 2);
    Skip(added, "x-error", 3);
    Skip(added, "x-failed-at", 4);
  }

  /** The counter is read from the first header with its name, wherever that is; without one it is 0. */
  lemma {:induction false} CounterIsFirst(headers: seq<Header>, i: nat)
    requires i <= |headers| && forall j :: 0 <= j < i ==> headers[j].key != "x-retry-count"
    requires i < |headers| ==> headers[i].key == "x-retry-count"
    ensures RetryCount(headers) == if i == |headers| then Some(0) else Scan(headers[i].value)
  {
    if i > 0 {
      CounterIsFirst(headers[1..], i - 1);
    }
  }

  /** And so is every other header. */
  lemma {:induction false} ValueIsFirst(headers: seq<Header>, key: string, i: nat)
    requires i <= |headers| && forall j :: 0 <= j < i ==> headers[j].key != key
    requires i < |headers| ==> headers[i].key == key
    ensures HeaderValue(headers, key) == if i == |headers| then "" else headers[i].value
  {
    if i > 0 {
      ValueIsFirst(headers[1..], key, i - 1);
    }
  }

  /** A retry keeps every header but the counters, in their order, and has the new counter last. */
  lemma {:induction false} RetryHeaders(headers: seq<Header>, retries: int)
    ensures |Bumped(headers, retries)| > 0
    ensures var kept := Bumped(headers, retries)[..|Bumped(headers, retries)| - 1];
            && Bumped(headers, retries)[|kept|] == Header("x-retry-count", Print(retries))
            && multiset(kept) <= multiset(headers)
            && (forall h :: h in kept ==> h.key != "x-retry-count")
            && (forall h :: h in headers && h.key != "x-retry-count" ==> multiset(kept)[h] == multiset(headers)[h])
            && (headers != [] && headers[0].key != "x-retry-count" ==> kept != [] && kept[0] == headers[0])
  {
    assert Bumped(headers, retries)[..|Bumped(headers, retries)| - 1] == Others(headers);
    if headers != [] {
      RetryHeaders(headers[1..], retries);
      assert Bumped(headers[1..], retries)[..|Bumped(headers[1..], retries)| - 1] == Others(headers[1..]);
      assert headers == [headers[0]] + headers[1..];
    }
  }

  /** Where a dead letter came from, and why, can be read back from the headers that were added. */
  lemma DeadLetterTellsOrigin(msg: Message, error: string, failedAt: string)
    requires -MAX_INT64 - 1 <= msg.partition <= MAX_INT64 && -MAX_INT64 - 1 <= msg.offset <= MAX_INT64
    ensures var added := Enriched(msg, error, failedAt)[|msg.headers|..];
            && HeaderValue(added, "x-original-topic") == msg.topic
            && Scan(HeaderValue(added, "x-original-partition")) == Some(msg.partition)
            && Scan(HeaderValue(added, "x-original-offset")) == Some(msg.offset)
            && HeaderValue(added, "x-error") == error && HeaderValue(added, "x-failed-at") == failedAt
  {
    var added := Origin(msg.topic, Print(msg.partition), Print(msg.offset), error, failedAt);
    assert Enriched(msg, error, failedAt)[|msg.headers|..] == added;
    ScanPrint(msg.partition);
    ScanPrint(msg.offset);
    OriginFound(msg.topic, Print(msg.partition), Print(msg.offset), error, failedAt);
  }

  // ----- The chain as code -----

  /** A message given to the producer; the topic decides whether it is a retry or a dead letter. */
  datatype Publication = Publication(topic: string, key: string, value: string, headers: seq<Header>)

  /** What the chain returns to the consumer. */
  datatype Reply = Nil | Error

  class PoisonPill {
    const dlqTopic: string
    const maxRetries: int
    var published: seq<Publication>

    constructor (dlqTopic: string, maxRetries: int)
      ensures this.dlqTopic == dlqTopic && this.maxRetries == maxRetries && published == []
    {
      this.dlqTopic, this.maxRetries, published := dlqTopic, maxRetries, [];
    }

    /** `accepted` says whether the producer reports success. */
    method Publish(p: Publication, accepted: bool) returns (reply: Reply)
      modifies `published
      ensures published == if accepted then old(published) + [p] else old(published)
      ensures reply == if accepted then Nil else Error
    {
      if accepted {
        published := published + [p];
        reply := Nil;
      } else {
        reply := Error;
      }
    }

    method RePublish(msg: Message, retries: int, accepted: bool) returns (reply: Reply)
      modifies `published
      ensures published == old(published) +
                if accepted then [Publication(msg.topic, msg.key, msg.value, Bumped(msg.headers, retries))] else []
      ensures reply == if accepted then Nil else Error
    {
      var headers: seq<Header> := [];
      for i := 0 to |msg.headers|
        invariant headers == Others(msg.headers[..i]) && published == old(published)
      {
        assert msg.headers[..i + 1] == msg.headers[..i] + [msg.headers[i]];
        OthersConcat(msg.headers[..i], [msg.headers[i]]);
        assert Others([msg.headers[i]]) == if msg.headers[i].key == RETRY_KEY then [] else [msg.headers[i]];
        if msg.headers[i].key != RETRY_KEY {
          headers := headers + [msg.headers[i]];
        }
      }
      assert msg.headers[..|msg.headers|] == msg.headers;
      headers := headers + [Header(RETRY_KEY, Print(retries))];
      reply := Publish(Publication(msg.topic, msg.key, msg.value, headers), accepted);
    }

    method SendToDLQ(msg: Message, error: string, failedAt: string, accepted: bool) returns (reply: Reply)
      modifies `published
      ensures published == old(published) +
                if accepted then [Publication(dlqTopic, msg.key, msg.value, Enriched(msg, error, failedAt))] else []
      ensures reply == if accepted then Nil else Error
    {
      var headers := msg.headers;
      headers := headers + [Header("x-original-topic", msg.topic),
                            Header("x-original-partition", Print(msg.partition)),
                            Header("x-original-offset", Print(msg.offset)),
                            Header("x-error", error),
                            Header("x-failed-at", failedAt)];
      reply := Publish(Publication(dlqTopic, msg.key, msg.value, headers), accepted);
    }

    /** A failed message is published exactly once more, with key and value unchanged, unless its counter cannot be read
        or the producer refuses it. */
    method Handle(msg: Message, outcome: Outcome, failedAt: string, accepted: bool) returns (reply: Reply)
      modifies `published
      ensures outcome.Handled? ==> reply.Nil? && published == old(published)
      ensures !outcome.Handled? && RetryCount(msg.headers).None? ==> reply.Error? && published == old(published)
      ensures !outcome.Handled? && RetryCount(msg.headers).Some? ==>
                var count := RetryCount(msg.headers).value;
                && reply == (if accepted then Nil else Error)
                && published == old(published) +
                     if !accepted then []
                     else if outcome.NonRetriable? || count >= maxRetries then
                       [Publication(dlqTopic, msg.key, msg.value, Enriched(msg, outcome.text, failedAt))]
                     else [Publication(msg.topic, msg.key, msg.value, Bumped(msg.headers, count + 1))]
      ensures match React(msg.headers, outcome, maxRetries)
              case NoReaction => reply.Nil? && published == old(published)
              case Unreadable => reply.Error? && published == old(published)
              case DeadLetter(error) =>
                && reply == (if accepted then Nil else Error)
                && published == old(published) +
                     (if accepted then [Publication(dlqTopic, msg.key, msg.value, Enriched(msg, error, failedAt))]
                      else [])
              case Republish(retries) =>
                && reply == (if accepted then Nil else Error)
                && published == old(published) +
                     if accepted then [Publication(msg.topic, msg.key, msg.value, Bumped(msg.headers, retries))] else []
    {
      if outcome.Handled? {
        return Nil;
      }
      var retries := RetryCount(msg.headers);
      if retries.None? {
        return Error;
      }
      if outcome.NonRetriable? || retries.value >= maxRetries {
        reply := SendToDLQ(msg, outcome.text, failedAt, accepted);
      } else {
        reply := RePublish(msg, retries.value + 1, accepted);
      }
    }
  }
}
