/** What a failed saga leaves behind. */
module SagaTheorems {
  import opened Options
  import opened Saga

  // ----- Compensation as undo -----

  /** A failed execution has no effect, and a successful compensation undoes its own step; a step without compensation
      has no effect that would need undoing. */
  ghost predicate Reversible<S(!new), E>(step: Step<S, E>) {
    forall s :: var (t, outcome) := step.execute(s);
      if outcome.Failed() || step.compensate.None? then t == s
      else step.compensate.value(t).1.Ok? ==> step.compensate.value(t).0 == s
  }

  lemma {:induction false} UndoRestores<S(!new), E>(steps: seq<Step<S, E>>, n: nat, s: S, done: nat -> bool)
    requires n <= |steps| && Completes(steps, n, s, done)
    requires forall i :: 0 <= i < n ==> Reversible(steps[i])
    requires Undo(steps, n, Forward(steps, n, s)).1 == []
    ensures Undo(steps, n, Forward(steps, n, s)).0 == s
  {
    if n > 0 {
      assert Reversible(steps[n - 1]);
      var before := Forward(steps, n - 1, s);
      assert steps[n - 1].execute(before).0 == Forward(steps, n, s);
      UndoRestores(steps, n - 1, s, done);
    }
  }

  /** A failed saga that is not poisoned restores the world it started from, whatever the number of steps. */
  lemma CleanFailureRestores<S(!new), E>(steps: seq<Step<S, E>>, done: nat -> bool, s: S, after: S,
                                         r: Result<SagaError<E>>)
    requires Means(steps, done, s, after, r) && !r.success && !r.IsPoisoned()
    requires forall i :: 0 <= i < |steps| ==> Reversible(steps[i])
    ensures after == s
  {
    var f: nat :| FailsAt(steps, done, s, after, r, f);
    assert Reversible(steps[f]);
    assert steps[f].execute(Forward(steps, f, s)).1.Failed() ==>
        steps[f].execute(Forward(steps, f, s)).0 == Forward(steps, f, s);
    UndoRestores(steps, f, s, done);
  }

  // ----- Steps on separate resources -----

  /** A step whose closures act on one resource of type `R` only. */
  datatype Local<!R, !E> = Local(name: string, execute: R -> (R, Outcome<E>), compensate: Option<R -> (R, Outcome<E>)>)

  function On<R, E>(name: string, f: R -> (R, Outcome<E>), w: map<string, R>): (map<string, R>, Outcome<E>) {
    if name in w then var (r, outcome) := f(w[name]); (w[name := r], outcome) else (w, Ok)
  }

  /** The same step acting on a world with one resource per name. */
  function Lift<R, E>(l: Local<R, E>): Step<map<string, R>, E> {
    Step(l.name, w => On(l.name, l.execute, w),
         if l.compensate.None? then None else Some(w => On(l.name, l.compensate.value, w)))
  }

  function LiftAll<R, E>(ls: seq<Local<R, E>>): (steps: seq<Step<map<string, R>, E>>)
    ensures |steps| == |ls|
  {
    seq(|ls|, i requires 0 <= i < |ls| => Lift(ls[i]))
  }

  /** A failing closure has no effect, and a successful compensation undoes the execution. */
  ghost predicate Tame<R(!new), E>(l: Local<R, E>) {
    && (forall r :: l.execute(r).1.Failed() ==> l.execute(r).0 == r)
    && (l.compensate.Some? ==> forall r :: l.compensate.value(r).1.Failed() ==> l.compensate.value(r).0 == r)
    && (l.compensate.Some? ==> forall r :: l.execute(r).1.Ok? && l.compensate.value(l.execute(r).0).1.Ok? ==>
          l.compensate.value(l.execute(r).0).0 == r)
  }

  /** The step names are distinct and each has its resource. */
  ghost predicate Separate<R, E>(ls: seq<Local<R, E>>, w: map<string, R>) {
    && (forall i :: 0 <= i < |ls| ==> ls[i].name in w)
    && (forall i, j :: 0 <= i < j < |ls| ==> ls[i].name != ls[j].name)
  }

  ghost predicate NamedBelow<R, E>(ls: seq<Local<R, E>>, n: nat, key: string) {
    exists i :: 0 <= i < n && i < |ls| && ls[i].name == key
  }

  lemma NamedStep<R, E>(ls: seq<Local<R, E>>, n: nat, w: map<string, R>)
    requires Separate(ls, w) && 0 < n <= |ls|
    ensures !NamedBelow(ls, n - 1, ls[n - 1].name)
    ensures forall key :: NamedBelow(ls, n, key) <==> NamedBelow(ls, n - 1, key) || key == ls[n - 1].name
  {
    assert NamedBelow(ls, n, ls[n - 1].name);
  }

  /** After `n` executed steps their resources are the executed ones, and no other has changed. */
  lemma {:induction false} ForwardLocal<R(!new), E>(ls: seq<Local<R, E>>, n: nat, w: map<string, R>, done: nat -> bool)
    requires Separate(ls, w) && n <= |ls| && Completes(LiftAll(ls), n, w, done)
    ensures var t := Forward(LiftAll(ls), n, w);
            && t.Keys == w.Keys
            && (forall i :: 0 <= i < n ==>
                  t[ls[i].name] == ls[i].execute(w[ls[i].name]).0 && ls[i].execute(w[ls[i].name]).1.Ok?)
            && (forall key :: key in w && !NamedBelow(ls, n, key) ==> t[key] == w[key])
  {
    if n > 0 {
      ForwardLocal(ls, n - 1, w, done);
      NamedStep(ls, n, w);
      assert LiftAll(ls)[n - 1] == Lift(ls[n - 1]);
    }
  }

  /** Compensation touches only the resources of its steps, and lists only those. */
  lemma {:induction false} UndoElsewhere<R(!new), E>(ls: seq<Local<R, E>>, n: nat, v: map<string, R>)
    requires Separate(ls, v) && n <= |ls|
    ensures var (u, errs) := Undo(LiftAll(ls), n, v);
            && u.Keys == v.Keys
            && (forall key :: key in v && !NamedBelow(ls, n, key) ==> u[key] == v[key])
            && (forall name :: name in errs ==> NamedBelow(ls, n, name))
  {
    if n > 0 {
      var l := ls[n - 1];
      assert LiftAll(ls)[n - 1] == Lift(l);
      UndoElsewhere(ls, n - 1, if l.compensate.None? then v else On(l.name, l.compensate.value, v).0);
      NamedStep(ls, n, v);
    }
  }

  /** The resource of a step after its compensation, and whether the step is listed. */
  ghost predicate UndoneAlone<R, E>(l: Local<R, E>, r: R, u: R, listed: bool) {
    if l.compensate.None? then u == r && !listed
    else u == l.compensate.value(r).0 && (listed <==> l.compensate.value(r).1.Failed())
  }

  /** Compensating `n` steps compensates each resource on its own, and lists exactly the failures. */
  lemma {:induction false} UndoLocal<R(!new), E>(ls: seq<Local<R, E>>, n: nat, v: map<string, R>, i: nat)
    requires Separate(ls, v) && i < n <= |ls|
    ensures var (u, errs) := Undo(LiftAll(ls), n, v);
            u.Keys == v.Keys && UndoneAlone(ls[i], v[ls[i].name], u[ls[i].name], ls[i].name in errs)
    decreases n
  {
    var l := ls[n - 1];
    assert LiftAll(ls)[n - 1] == Lift(l);
    var t := if l.compensate.None? then v else On(l.name, l.compensate.value, v).0;
    UndoElsewhere(ls, n - 1, t);
    NamedStep(ls, n, v);
    if i < n - 1 {
      UndoLocal(ls, n - 1, t, i);
      assert t[ls[i].name] == v[ls[i].name];
    }
  }

  /** The residue of a failed saga: of the steps completed before the failing step `f`, exactly those without a
      compensation, or listed in the compensation errors, have left their effect; every other resource is as before. */
  ghost predicate Residue<R, E>(ls: seq<Local<R, E>>, f: nat, errs: seq<string>, w: map<string, R>,
                                after: map<string, R>) {
    && f <= |ls| && after.Keys == w.Keys
    && (forall i :: 0 <= i < f && ls[i].name in w ==>
          after[ls[i].name] ==
          if ls[i].compensate.None? || ls[i].name in errs then ls[i].execute(w[ls[i].name]).0 else w[ls[i].name])
    && (forall key :: key in w && !NamedBelow(ls, f, key) ==> after[key] == w[key])
  }

  /** The resource of a completed step after compensation has started from the world in which `f` steps are executed. */
  lemma StepResidue<R(!new), E>(ls: seq<Local<R, E>>, f: nat, w: map<string, R>, done: nat -> bool, i: nat)
    requires Separate(ls, w) && i < f <= |ls| && Completes(LiftAll(ls), f, w, done) && Tame(ls[i])
    ensures var (u, errs) := Undo(LiftAll(ls), f, Forward(LiftAll(ls), f, w)); var name := ls[i].name;
            && u.Keys == w.Keys
            && u[name] == if ls[i].compensate.None? || name in errs then ls[i].execute(w[name]).0 else w[name]
  {
    ForwardLocal(ls, f, w, done);
    UndoLocal(ls, f, Forward(LiftAll(ls), f, w), i);
  }

  /** A failing execution of step `f` changes nothing. */
  lemma FailureTame<R(!new), E>(ls: seq<Local<R, E>>, f: nat, t: map<string, R>)
    requires Separate(ls, t) && f < |ls| && Tame(ls[f])
    ensures LiftAll(ls)[f].execute(t).1.Failed() ==> LiftAll(ls)[f].execute(t).0 == t
  {
    assert LiftAll(ls)[f] == Lift(ls[f]);
    assert t[ls[f].name := t[ls[f].name]] == t;
  }

  lemma FailureResidue<R(!new), E>(ls: seq<Local<R, E>>, done: nat -> bool, w: map<string, R>, after: map<string, R>,
                                   r: Result<SagaError<E>>) returns (f: nat)
    requires Separate(ls, w) && forall i :: 0 <= i < |ls| ==> Tame(ls[i])
    requires Means(LiftAll(ls), done, w, after, r) && !r.success
    ensures f < |ls| && r.failedStep == ls[f].name && Residue(ls, f, r.compensationErrors, w, after)
  {
    f :| FailsAt(LiftAll(ls), done, w, after, r, f);
    ForwardLocal(ls, f, w, done);
    var t := Forward(LiftAll(ls), f, w);
    FailureTame(ls, f, t);
    UndoElsewhere(ls, f, t);
    forall i | 0 <= i < f
      ensures after[ls[i].name] ==
              if ls[i].compensate.None? || ls[i].name in r.compensationErrors then ls[i].execute(w[ls[i].name]).0
              else w[ls[i].name]
    {
      StepResidue(ls, f, w, done, i);
    }
  }

  /** Exactly when a failed saga needs manual intervention: the compensation of some completed step fails on what
      that step has done.  Every such step is listed, and no other. */
  lemma PoisonedExactly<R(!new), E>(ls: seq<Local<R, E>>, done: nat -> bool, w: map<string, R>, after: map<string, R>,
                                    r: Result<SagaError<E>>) returns (f: nat)
    requires Separate(ls, w) && forall i :: 0 <= i < |ls| ==> Tame(ls[i])
    requires Means(LiftAll(ls), done, w, after, r) && !r.success
    ensures f < |ls| && r.failedStep == ls[f].name
    ensures forall i :: 0 <= i < |ls| ==>
              (ls[i].name in r.compensationErrors <==>
               i < f && ls[i].compensate.Some? && ls[i].compensate.value(ls[i].execute(w[ls[i].name]).0).1.Failed())
    ensures r.IsPoisoned() <==>
              exists i :: 0 <= i < f && ls[i].compensate.Some?
                && ls[i].compensate.value(ls[i].execute(w[ls[i].name]).0).1.Failed()
  {
    f :| FailsAt(LiftAll(ls), done, w, after, r, f);
    ForwardLocal(ls, f, w, done);
    var t := Forward(LiftAll(ls), f, w);
    FailureTame(ls, f, t);
    UndoElsewhere(ls, f, t);
    assert r.compensationErrors == Undo(LiftAll(ls), f, t).1;
    forall i | 0 <= i < f
      ensures ls[i].name in r.compensationErrors <==>
              ls[i].compensate.Some? && ls[i].compensate.value(ls[i].execute(w[ls[i].name]).0).1.Failed()
    {
      UndoLocal(ls, f, t, i);
    }
    if r.compensationErrors != [] {
      assert NamedBelow(ls, f, r.compensationErrors[0]);
    }
  }

  /** A successful saga leaves the effect of every step. */
  lemma SuccessEffects<R(!new), E>(ls: seq<Local<R, E>>, done: nat -> bool, w: map<string, R>, after: map<string, R>,
                                   r: Result<SagaError<E>>)
    requires Separate(ls, w) && Means(LiftAll(ls), done, w, after, r) && r.success
    ensures after.Keys == w.Keys
    ensures forall i :: 0 <= i < |ls| ==> after[ls[i].name] == ls[i].execute(w[ls[i].name]).0
  {
    ForwardLocal(ls, |ls|, w, done);
  }
}
