/** The idempotency guard: duplicate and concurrent deliveries of one message, each in its own transaction. */
module Idempotency {
  import opened Text

  /** The key stored for a delivery. */
  function Key(topic: string, partition: int, offset: int): string {
    topic + ":" + Print(partition) + ":" + Print(offset)
  }

  /** The last colon splits a text in only one way. */
  lemma LastColon(a: string, b: string, x: string, y: string)
    requires a + ":" + x == b + ":" + y && ':' !in x && ':' !in y
    ensures a == b && x == y
  {
    var s := a + ":" + x;
    assert s == b + ":" + y;
    assert s[|a|] == ':' && s[|b|] == ':';
    assert s[|a| + 1..] == x && s[|b| + 1..] == y;
    if |a| == |b| {
      assert s[..|a|] == a && s[..|b|] == b;
    }
  }

  /** Different deliveries never share a key, even if the topic name contains a colon. */
  lemma KeyInjective(topic: string, partition: int, offset: int, topic': string, partition': int, offset': int)
    requires Key(topic, partition, offset) == Key(topic', partition', offset')
    ensures topic == topic' && partition == partition' && offset == offset'
  {
    PrintHasNoColon(partition);
    PrintHasNoColon(partition');
    PrintHasNoColon(offset);
    PrintHasNoColon(offset');
    LastColon(topic + ":" + Print(partition), topic' + ":" + Print(partition'), Print(offset), Print(offset'));
    LastColon(topic, topic', Print(partition), Print(partition'));
    PrintInjective(partition, partition');
    PrintInjective(offset, offset');
  }

  /** One delivery: before and after its insert; the handler runs in `Entered`; `Ran` is about to commit; a duplicate
      skips the handler. */
  datatype Delivery = Outside | Begun(key: string) | Entered(key: string) | Ran(key: string) | Skipped(key: string)

  /** `processed` is the committed table.  Per key, `entries` counts how often the handler was entered, `runs` the
      committed transactions that ran it, and `aborted` those that aborted after they had entered it. */
  datatype State = State(
    processed: set<string>,
    deliveries: seq<Delivery>,
    runs: multiset<string>,
    entries: multiset<string>,
    aborted: multiset<string>)

  function Start(n: nat): State {
    State({}, seq(n, _ => Outside), multiset{}, multiset{}, multiset{})
  }

  datatype Action =
    | Begin(d: nat, key: string)
    | Insert(d: nat)
    | HandlerOk(d: nat)
    | Commit(d: nat)
    | Abort(d: nat)

  /** The delivery has inserted the key and not yet ended its transaction. */
  predicate Holds(d: Delivery, key: string) { d == Entered(key) || d == Ran(key) }

  /** An insert waits for another transaction that has inserted the same key. */
  ghost predicate Blocked(s: State, key: string) {
    exists d :: 0 <= d < |s.deliveries| && Holds(s.deliveries[d], key)
  }

  ghost predicate Enabled(s: State, a: Action) {
    a.d < |s.deliveries| &&
    match a
    case Begin(d, _) => s.deliveries[d].Outside?
    case Insert(d) => s.deliveries[d].Begun? && !Blocked(s, s.deliveries[d].key)
    case HandlerOk(d) => s.deliveries[d].Entered?
    case Commit(d) => s.deliveries[d].Ran? || s.deliveries[d].Skipped?
    case Abort(d) => !s.deliveries[d].Outside?
  }

  function Goto(s: State, d: nat, to': Delivery): State
    requires d < |s.deliveries|
  {
    s.(deliveries := s.deliveries[d := to'])
  }

  ghost function Apply(s: State, a: Action): State
    requires Enabled(s, a)
  {
    match a
    case Begin(d, key) => Goto(s, d, Begun(key))
    case Insert(d) =>
      var key := s.deliveries[d].key;
      if key in s.processed then Goto(s, d, Skipped(key))
      else Goto(s, d, Entered(key)).(entries := s.entries + multiset{key})
    case HandlerOk(d) => Goto(s, d, Ran(s.deliveries[d].key))
    case Commit(d) =>
      var key := s.deliveries[d].key;
      if s.deliveries[d].Ran? then
        Goto(s, d, Outside).(processed := s.processed + {key}, runs := s.runs + multiset{key})
      else Goto(s, d, Outside)
    case Abort(d) =>
      if s.deliveries[d].Entered? || s.deliveries[d].Ran? then
        Goto(s, d, Outside).(aborted := s.aborted + multiset{s.deliveries[d].key})
      else Goto(s, d, Outside)
  }

  ghost predicate Step(s: State, s': State) {
    exists a :: Enabled(s, a) && Apply(s, a) == s'
  }

  /** Entry `i` of a run leads to the next one, if there is one. */
  ghost predicate StepAt(run: seq<State>, i: nat) {
    i + 1 < |run| ==> Step(run[i], run[i + 1])
  }

  ghost predicate IsRun(run: seq<State>) {
    && |run| > 0
    && (exists n: nat :: run[0] == Start(n))
    && forall i: nat :: StepAt(run, i)
  }

  /** At most one open transaction has inserted a key. */
  ghost predicate HeldOnce(deliveries: seq<Delivery>) {
    forall d, e, key :: 0 <= d < |deliveries| && 0 <= e < |deliveries| ==>
      Holds(deliveries[d], key) && Holds(deliveries[e], key) ==> d == e
  }

  ghost predicate Inv(s: State) {
    && HeldOnce(s.deliveries)
    && (forall d, key :: 0 <= d < |s.deliveries| && Holds(s.deliveries[d], key) ==> key !in s.processed)
    && (forall key :: s.runs[key] == if key in s.processed then 1 else 0)
  }

  lemma InvKept(s: State, a: Action)
    requires Inv(s) && Enabled(s, a)
    ensures Inv(Apply(s, a))
  {
    if a.Commit? && s.deliveries[a.d].Ran? {
      assert Holds(s.deliveries[a.d], s.deliveries[a.d].key);
    }
  }

  lemma {:induction false} InvAlways(run: seq<State>, i: nat)
    requires IsRun(run) && i < |run|
    ensures Inv(run[i])
  {
    if i > 0 {
      InvAlways(run, i - 1);
      assert StepAt(run, i - 1);
      var a :| Enabled(run[i - 1], a) && Apply(run[i - 1], a) == run[i];
      InvKept(run[i - 1], a);
    }
  }

  /** At most one transaction that ran the handler commits for a key, and the key is stored exactly when one did. */
  lemma CommittedOnce(run: seq<State>, i: nat, key: string)
    requires IsRun(run) && i < |run|
    ensures run[i].runs[key] <= 1
    ensures key in run[i].processed <==> run[i].runs[key] == 1
  {
    InvAlways(run, i);
  }

  /** The handler is never running, nor waiting to commit, for a key that is already committed, and never twice at the
      same time for one key. */
  lemma HandlerExclusive(run: seq<State>, i: nat, d: nat, e: nat, key: string)
    requires IsRun(run) && i < |run| && d < |run[i].deliveries| && e < |run[i].deliveries|
    requires Holds(run[i].deliveries[d], key)
    ensures key !in run[i].processed
    ensures Holds(run[i].deliveries[e], key) ==> d == e
  {
    InvAlways(run, i);
  }

  /** Once a key is committed its handler is never entered again. */
  lemma {:induction false} NeverEnteredAgain(run: seq<State>, i: nat, j: nat, key: string)
    requires IsRun(run) && i <= j < |run| && key in run[i].processed
    ensures key in run[j].processed && run[j].entries[key] == run[i].entries[key]
    decreases j
  {
    if i < j {
      NeverEnteredAgain(run, i, j - 1, key);
      assert StepAt(run, j - 1);
    }
  }

  /** One more action at the end of a run. */
  lemma Extended(run: seq<State>, a: Action) returns (longer: seq<State>)
    requires IsRun(run) && Enabled(run[|run| - 1], a)
    ensures |longer| == |run| + 1 && IsRun(longer) && longer[|run|] == Apply(run[|run| - 1], a)
    ensures longer[..|run|] == run
  {
    var last := run[|run| - 1];
    longer := run + [Apply(last, a)];
    assert longer[0] == run[0];
    forall i: nat ensures StepAt(longer, i) {
      assert StepAt(run, i);
      assert i == |run| - 1 ==> Enabled(last, a) && Apply(last, a) == longer[i + 1];
    }
  }

  // ----- How often the handler is entered -----

  function HeldBy(d: Delivery, key: string): nat {
    if Holds(d, key) then 1 else 0
  }

  /** The transactions that have entered the handler and are still open. */
  function Holders(deliveries: seq<Delivery>, key: string): nat {
    if deliveries == [] then 0
    else Holders(deliveries[..|deliveries| - 1], key) + HeldBy(deliveries[|deliveries| - 1], key)
  }

  lemma {:induction false} HoldersUpdate(deliveries: seq<Delivery>, d: nat, after: Delivery, key: string)
    requires d < |deliveries|
    ensures Holders(deliveries[d := after], key) + HeldBy(deliveries[d], key) ==
            Holders(deliveries, key) + HeldBy(after, key)
  {
    var n := |deliveries| - 1;
    if d == n {
      assert deliveries[d := after][..n] == deliveries[..n];
    } else {
      assert deliveries[d := after][..n] == deliveries[..n][d := after];
      HoldersUpdate(deliveries[..n], d, after, key);
    }
  }

  lemma EntriesStep(s: State, a: Action, key: string)
    requires Enabled(s, a) && s.entries[key] == s.runs[key] + s.aborted[key] + Holders(s.deliveries, key)
    ensures var t := Apply(s, a); t.entries[key] == t.runs[key] + t.aborted[key] + Holders(t.deliveries, key)
  {
    HoldersUpdate(s.deliveries, a.d, Apply(s, a).deliveries[a.d], key);
  }

  lemma {:induction false} NoHolders(n: nat, key: string)
    ensures Holders(seq(n, _ => Outside), key) == 0
  {
    if n > 0 {
      assert seq(n, _ => Outside)[..n - 1] == seq(n - 1, _ => Outside);
      NoHolders(n - 1, key);
    }
  }

  /** Conservation: every entry of the handler is accounted for by a committed transaction, by one that aborted after
      it, or by one that is still open. */
  lemma {:induction false} EntriesConserved(run: seq<State>, i: nat, key: string)
    requires IsRun(run) && i < |run|
    ensures run[i].entries[key] == run[i].runs[key] + run[i].aborted[key] + Holders(run[i].deliveries, key)
  {
    if i == 0 {
      var n: nat :| run[0] == Start(n);
      NoHolders(n, key);
    } else {
      EntriesConserved(run, i - 1, key);
      assert StepAt(run, i - 1);
      var a :| Enabled(run[i - 1], a) && Apply(run[i - 1], a) == run[i];
      EntriesStep(run[i - 1], a, key);
    }
  }

  /** A transaction that holds the key, or the committed one: there is at most one of them. */
  lemma {:induction false} OneHolder(deliveries: seq<Delivery>, key: string)
    requires HeldOnce(deliveries)
    ensures Holders(deliveries, key) == if exists d :: 0 <= d < |deliveries| && Holds(deliveries[d], key) then 1 else 0
  {
    if deliveries != [] {
      var n := |deliveries| - 1;
      OneHolder(deliveries[..n], key);
      if d :| 0 <= d < n && Holds(deliveries[..n][d], key) {
        assert Holds(deliveries[d], key);
      }
      assert forall d :: 0 <= d < n ==> deliveries[..n][d] == deliveries[d];
    }
  }

  /** The key is committed, or a transaction that has entered the handler for it is still open. */
  ghost predicate Taken(s: State, key: string) {
    key in s.processed || Blocked(s, key)
  }

  /** Exactly how often the handler has been entered: once for every abort after an entry, and once more if the key is
      taken.  So it is entered more than once only after such an abort. */
  lemma EntriesExactly(run: seq<State>, i: nat, key: string)
    requires IsRun(run) && i < |run|
    ensures run[i].entries[key] == run[i].aborted[key] + if Taken(run[i], key) then 1 else 0
    ensures run[i].entries[key] > 1 <==> run[i].aborted[key] > if Taken(run[i], key) then 0 else 1
  {
    EntriesConserved(run, i, key);
    InvAlways(run, i);
    OneHolder(run[i].deliveries, key);
  }

  /** The run goes on, and `key` has not been entered or committed meanwhile. */
  ghost predicate Extends(run: seq<State>, longer: seq<State>, key: string) {
    && IsRun(longer) && |run| <= |longer| && longer[..|run|] == run && |run| > 0
    && var s, t := run[|run| - 1], longer[|longer| - 1];
    && t.processed == s.processed && t.entries == s.entries && |t.deliveries| == |s.deliveries|
  }

  /** Abort whatever delivery `d` is doing. */
  lemma Freed(run: seq<State>, d: nat, key: string) returns (longer: seq<State>)
    requires IsRun(run) && d < |run[|run| - 1].deliveries|
    ensures Extends(run, longer, key)
    ensures longer[|longer| - 1].deliveries == run[|run| - 1].deliveries[d := Outside]
  {
    if run[|run| - 1].deliveries[d].Outside? {
      longer := run;
    } else {
      longer := Extended(run, Abort(d));
    }
  }

  /** Abort the transaction that holds the key, if there is one, and make delivery 0 free. */
  lemma MadeRoom(run: seq<State>, key: string) returns (longer: seq<State>)
    requires IsRun(run) && |run[|run| - 1].deliveries| > 0
    ensures Extends(run, longer, key)
    ensures longer[|longer| - 1].deliveries[0].Outside? && !Blocked(longer[|longer| - 1], key)
  {
    var s := run[|run| - 1];
    InvAlways(run, |run| - 1);
    if d: nat :| d < |s.deliveries| && Holds(s.deliveries[d], key) {
      longer := Freed(run, d, key);
      longer := Freed(longer, 0, key);
    } else {
      longer := Freed(run, 0, key);
    }
  }

  /** The handler can be entered once more for a key, in some continuation, exactly when the key is not committed. */
  lemma EnterableExactly(run: seq<State>, key: string)
    requires IsRun(run) && |run[|run| - 1].deliveries| > 0
    ensures (exists longer: seq<State> :: IsRun(longer) && run <= longer
                              && longer[|longer| - 1].entries[key] > run[|run| - 1].entries[key]) <==>
            key !in run[|run| - 1].processed
  {
    if key in run[|run| - 1].processed {
      forall longer: seq<State> | IsRun(longer) && run <= longer
        ensures longer[|longer| - 1].entries[key] == run[|run| - 1].entries[key]
      {
        NeverEnteredAgain(longer, |run| - 1, |longer| - 1, key);
      }
    } else {
      var longer := MadeRoom(run, key);
      longer := Extended(longer, Begin(0, key));
      longer := Extended(longer, Insert(0));
    }
  }
}
