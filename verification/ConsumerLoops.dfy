/** The poll goroutine's own loops over its map and channels, and what they compute. */
module ConsumerLoops {
  import opened ConsumerModel
  import opened ConsumerInvariant

  /** Draining `entries` into `pending`, one receive after the other. */
  function MergeAll(pending: Pending, entries: seq<Entry>): Pending
    decreases |entries|
  {
    if entries == [] then pending else MergeAll(Merge(pending, entries[0]), entries[1..])
  }

  /** A drain keeps exactly one offset for each partition it saw, and it is the largest. */
  lemma {:induction false} MergeAllKeepsMaxima(pending: Pending, entries: seq<Entry>)
    requires forall tp :: tp in pending ==> pending[tp].tp == tp
    ensures forall tp :: tp in MergeAll(pending, entries) <==> tp in pending || exists e :: e in entries && e.tp == tp
    ensures forall tp :: tp in MergeAll(pending, entries) ==> MergeAll(pending, entries)[tp].tp == tp
    ensures forall tp :: tp in MergeAll(pending, entries) ==>
              || MergeAll(pending, entries)[tp] in entries
              || (tp in pending && MergeAll(pending, entries)[tp] == pending[tp])
    ensures forall e :: e in entries ==> MergeAll(pending, entries)[e.tp].off >= e.off
    ensures forall tp :: tp in pending ==> MergeAll(pending, entries)[tp].off >= pending[tp].off
    decreases |entries|
  {
    if entries != [] {
      MergeAllKeepsMaxima(Merge(pending, entries[0]), entries[1..]);
      assert forall e :: e in entries <==> e == entries[0] || e in entries[1..];
    }
  }

  lemma CloseOneMore(ws: seq<Worker>, workers: map<TP, nat>, keys: set<TP>, tp: TP)
    requires tp in workers && tp !in keys && workers[tp] < |ws| && ws[workers[tp]].tp == tp
    ensures CloseAll(ws, workers, keys + {tp}) ==
            CloseAll(ws, workers, keys)[workers[tp] := ws[workers[tp]].(closed := true)]
  {
  }

  lemma CloseNoMore(ws: seq<Worker>, workers: map<TP, nat>, keys: set<TP>, tp: TP)
    requires tp !in workers || tp in keys
    ensures CloseAll(ws, workers, keys + {tp}) == CloseAll(ws, workers, keys)
  {
  }

  /** The targets of the rest of a list, one partition further on. */
  lemma NextTarget(workers: map<TP, nat>, parts: seq<TP>, i: nat)
    requires i < |parts|
    ensures Targets(workers, parts[i..]) ==
            if parts[i] in workers then [workers[parts[i]]] + Targets(workers - {parts[i]}, parts[i + 1..])
            else Targets(workers, parts[i + 1..])
  {
    assert parts[i..][0] == parts[i] && parts[i..][1..] == parts[i + 1..];
  }

  function FirstOf(parts: seq<TP>, i: nat): set<TP>
    requires i <= |parts|
  {
    set p | p in parts[..i]
  }

  /** The first `i` partitions of the list have been stopped. */
  ghost predicate StoppedTo(ws0: seq<Worker>, workers0: map<TP, nat>, parts: seq<TP>, i: nat, ws: seq<Worker>,
                          workers: map<TP, nat>, toWait: seq<nat>)
    requires i <= |parts|
  {
    var seen := FirstOf(parts, i);
    && workers == workers0 - seen && ws == CloseAll(ws0, workers0, seen)
    && Targets(workers0, parts) == toWait + Targets(workers, parts[i..])
  }

  lemma NoneStopped(ws: seq<Worker>, workers: map<TP, nat>, parts: seq<TP>)
    ensures StoppedTo(ws, workers, parts, 0, ws, workers, [])
  {
    assert parts[0..] == parts;
    assert CloseAll(ws, workers, {}) == ws;
  }

  lemma AllStopped(ws0: seq<Worker>, workers0: map<TP, nat>, parts: seq<TP>, ws: seq<Worker>, workers: map<TP, nat>,
                   toWait: seq<nat>)
    requires StoppedTo(ws0, workers0, parts, |parts|, ws, workers, toWait)
    ensures ws == CloseAll(ws0, workers0, set p | p in parts) && toWait == Targets(workers0, parts)
    ensures workers == workers0 - set p | p in parts
  {
    assert parts[..|parts|] == parts;
  }

  lemma NextStopped(ws0: seq<Worker>, workers0: map<TP, nat>, parts: seq<TP>, i: nat, ws: seq<Worker>,
                    workers: map<TP, nat>, toWait: seq<nat>)
    requires forall tp :: tp in workers0 ==> workers0[tp] < |ws0| && ws0[workers0[tp]].tp == tp
    requires i < |parts| && StoppedTo(ws0, workers0, parts, i, ws, workers, toWait)
    ensures var tp := parts[i];
            if tp in workers then
              && workers[tp] < |ws|
              && StoppedTo(ws0, workers0, parts, i + 1, ws[workers[tp] := ws[workers[tp]].(closed := true)],
                         workers - {tp}, toWait + [workers[tp]])
            else StoppedTo(ws0, workers0, parts, i + 1, ws, workers, toWait)
  {
    var tp, seen := parts[i], FirstOf(parts, i);
    assert parts[..i + 1] == parts[..i] + [tp];
    assert FirstOf(parts, i + 1) == seen + {tp};
    NextTarget(workers, parts, i);
    if tp in workers {
      CloseOneMore(ws0, workers0, seen, tp);
      assert workers - {tp} == workers0 - (seen + {tp});
    } else {
      CloseNoMore(ws0, workers0, seen, tp);
      assert workers == workers0 - (seen + {tp});
    }
  }

  lemma TakeOne(m: Pending, tp: TP)
    requires tp in m
    ensures m.Values == (m - {tp}).Values + {m[tp]}
  {
    forall e | e in m.Values
      ensures e in (m - {tp}).Values + {m[tp]}
    {
      var k :| k in m && m[k] == e;
      assert k != tp ==> k in m - {tp} && (m - {tp})[k] == e;
    }
    forall e | e in (m - {tp}).Values
      ensures e in m.Values
    {
      var k :| k in m - {tp} && (m - {tp})[k] == e;
      assert k in m;
    }
  }

  /** No worker is waited for twice. */
  lemma {:induction false} TargetsOnce(workers: map<TP, nat>, parts: seq<TP>)
    requires forall p, q :: p in workers && q in workers && workers[p] == workers[q] ==> p == q
    ensures forall i, j :: 0 <= i < j < |Targets(workers, parts)| ==>
              Targets(workers, parts)[i] != Targets(workers, parts)[j]
  {
    if parts != [] {
      if parts[0] in workers {
        var rest := workers - {parts[0]};
        TargetsOnce(rest, parts[1..]);
        TargetsAre(rest, parts[1..]);
        assert forall tp :: tp in rest ==> rest[tp] == workers[tp] && workers[tp] != workers[parts[0]];
        assert workers[parts[0]] !in Targets(rest, parts[1..]);
      } else {
        TargetsOnce(workers, parts[1..]);
      }
    }
  }

  /** Exactly the registered workers of the listed partitions are waited for, each once. */
  lemma WaitsForThem(workers: map<TP, nat>, parts: seq<TP>)
    requires forall p, q :: p in workers && q in workers && workers[p] == workers[q] ==> p == q
    ensures forall t :: t in Targets(workers, parts) <==>
              exists tp :: tp in parts && tp in workers && workers[tp] == t
    ensures forall i, j :: 0 <= i < j < |Targets(workers, parts)| ==>
              Targets(workers, parts)[i] != Targets(workers, parts)[j]
  {
    TargetsAre(workers, parts);
    TargetsOnce(workers, parts);
  }

  /** Exactly the workers registered for a partition in `keys` are closed. */
  lemma ClosesThem(ws: seq<Worker>, workers: map<TP, nat>, keys: set<TP>)
    requires forall tp :: tp in workers ==> workers[tp] < |ws| && ws[workers[tp]].tp == tp
    ensures |CloseAll(ws, workers, keys)| == |ws|
    ensures forall w :: 0 <= w < |ws| ==>
              CloseAll(ws, workers, keys)[w] ==
              ws[w].(closed := ws[w].closed || exists tp :: tp in keys && tp in workers && workers[tp] == w)
  {
  }

  class PollLoop {
    var ws: seq<Worker>
    var workers: map<TP, nat>
    var commitCh: seq<Entry>
    var committed: set<Entry>

    /** Every registered worker exists and serves the partition it is registered for. */
    ghost predicate Valid()
      reads this
    {
      forall tp :: tp in workers ==> workers[tp] < |ws| && ws[workers[tp]].tp == tp
    }

    constructor ()
      ensures Valid() && ws == [] && workers == map[] && commitCh == [] && committed == {}
    {
      ws, workers, commitCh, committed := [], map[], [], {};
    }

    /** The receive loop of `drainCommits`, and of `awaitWorkers` after `done`. */
    method Drain(start: Pending) returns (pending: Pending)
      modifies `commitCh
      ensures commitCh == [] && pending == MergeAll(start, old(commitCh))
    {
      pending := start;
      while commitCh != []
        invariant MergeAll(pending, commitCh) == MergeAll(start, old(commitCh))
        decreases |commitCh|
      {
        var e := commitCh[0];
        commitCh := commitCh[1..];
        if e.tp !in pending || e.off > pending[e.tp].off {
          pending := pending[e.tp := e];
        }
      }
    }

    /** Collect the pending offsets and hand them to the broker in one call. */
    method CommitOffsets(pending: Pending)
      modifies `committed
      ensures committed == old(committed) + pending.Values
    {
      if pending == map[] {
        return;
      }
      var offsets: seq<Entry> := [];
      var rest := pending;
      while rest.Keys != {}
        invariant rest.Keys <= pending.Keys && forall tp :: tp in rest ==> rest[tp] == pending[tp]
        invariant pending.Values == (set e | e in offsets) + rest.Values
        invariant committed == old(committed)
        decreases rest.Keys
      {
        var tp :| tp in rest.Keys;
        offsets := offsets + [rest[tp]];
        TakeOne(rest, tp);
        rest := rest - {tp};
      }
      committed := committed + set e | e in offsets;
    }

    method DrainCommits()
      modifies `commitCh, `committed
      ensures commitCh == []
      ensures committed == old(committed) + MergeAll(map[], old(commitCh)).Values
    {
      var pending := Drain(map[]);
      CommitOffsets(pending);
    }

    /** The lookup of `dispatch`: the worker that gets the message, started if there was none. */
    method WorkerFor(m: Msg) returns (w: nat)
      requires Valid()
      modifies `ws, `workers
      ensures Valid() && m.tp in workers && workers[m.tp] == w
      ensures if m.tp in old(workers) then ws == old(ws) && workers == old(workers)
              else ws == old(ws) + [Worker(m.tp, [], false, Waiting)] && workers == old(workers)[m.tp := |old(ws)|]
    {
      if m.tp !in workers {
        workers := workers[m.tp := |ws|];
        ws := ws + [Worker(m.tp, [], false, Waiting)];
      }
      w := workers[m.tp];
    }

    /** The first half of `stopWorkers`: close, collect and unregister the workers of the revoked partitions. */
    method StopPartitions(parts: seq<TP>) returns (toWait: seq<nat>)
      requires Valid()
      modifies `ws, `workers
      ensures Valid()
      ensures ws == CloseAll(old(ws), old(workers), set p | p in parts)
      ensures toWait == Targets(old(workers), parts)
      ensures forall tp :: tp in workers <==> tp in old(workers) && tp !in parts
      ensures forall tp :: tp in workers ==> workers[tp] == old(workers)[tp]
    {
      toWait := [];
      NoneStopped(ws, workers, parts);
      for i := 0 to |parts|
        invariant StoppedTo(old(ws), old(workers), parts, i, ws, workers, toWait)
      {
        NextStopped(old(ws), old(workers), parts, i, ws, workers, toWait);
        var tp := parts[i];
        if tp in workers {
          ws := ws[workers[tp] := ws[workers[tp]].(closed := true)];
          toWait := toWait + [workers[tp]];
          workers := workers - {tp};
        }
      }
      AllStopped(old(ws), old(workers), parts, ws, workers, toWait);
    }

    /** The first half of `shutdown`: close and unregister every worker. */
    method StopAll()
      requires Valid()
      modifies `ws, `workers
      ensures Valid() && workers == map[]
      ensures ws == CloseAll(old(ws), old(workers), old(workers).Keys)
    {
      ghost var seen: set<TP> := {};
      assert CloseAll(ws, workers, seen) == ws;
      while workers.Keys != {}
        invariant workers.Keys == old(workers).Keys - seen && seen <= old(workers).Keys
        invariant forall tp :: tp in workers ==> workers[tp] == old(workers)[tp]
        invariant ws == CloseAll(old(ws), old(workers), seen)
        decreases workers.Keys
      {
        var tp :| tp in workers.Keys;
        CloseOneMore(old(ws), old(workers), seen, tp);
        ws := ws[workers[tp] := ws[workers[tp]].(closed := true)];
        workers := workers - {tp};
        seen := seen + {tp};
      }
      assert seen == old(workers).Keys;
    }
  }
}
