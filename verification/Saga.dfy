/** The saga orchestrator: steps run forward until one fails, then the completed ones are compensated backwards. */
module Saga {
  import opened Options

  /** How a closure ends.  A panic is recovered and becomes an error. */
  datatype Outcome<+E> = Ok | Fails(error: E) | Panics(error: E) {
    predicate Failed() { !Ok? }
  }

  /** A step acts on the world `S`; its closures return the new world and how they ended. */
  datatype Step<!S, !E> = Step(name: string, execute: S -> (S, Outcome<E>), compensate: Option<S -> (S, Outcome<E>)>)

  datatype Result<+E> = Result(success: bool, failedStep: string, error: Option<E>, compensationErrors: seq<string>) {
    predicate IsPoisoned() { !success && |compensationErrors| > 0 }
  }

  /** The errors that end a saga: a step's own, or the context's. */
  datatype SagaError<+E> = StepError(error: E) | ContextDone

  /** The world after `n` steps have been executed. */
  ghost function Forward<S, E>(steps: seq<Step<S, E>>, n: nat, s: S): S
    requires n <= |steps|
  {
    if n == 0 then s else steps[n - 1].execute(Forward(steps, n - 1, s)).0
  }

  /** The first `n` steps all succeed, and the context is not done at their start. */
  ghost predicate Completes<S, E>(steps: seq<Step<S, E>>, n: nat, s: S, done: nat -> bool)
    requires n <= |steps|
  {
    n == 0 || (Completes(steps, n - 1, s, done) && !done(n - 1) && steps[n - 1].execute(Forward(steps, n - 1, s)).1.Ok?)
  }

  /** Compensating the first `n` steps, the last one first; the names of the steps whose compensation failed. */
  function Undo<S, E>(steps: seq<Step<S, E>>, n: nat, s: S): (S, seq<string>)
    requires n <= |steps|
  {
    if n == 0 then (s, [])
    else if steps[n - 1].compensate.None? then Undo(steps, n - 1, s)
    else
      var (t, outcome) := steps[n - 1].compensate.value(s);
      var (u, errs) := Undo(steps, n - 1, t);
      (u, if outcome.Failed() then [steps[n - 1].name] + errs else errs)
  }

  /** The first `n` steps were compensated, starting from `s`. */
  ghost predicate Undone<S, E>(steps: seq<Step<S, E>>, n: nat, s: S, after: S, r: Result<SagaError<E>>)
    requires n <= |steps|
  {
    after == Undo(steps, n, s).0 && r.compensationErrors == Undo(steps, n, s).1
  }

  /** Step `f` was the first not to complete; everything before it was compensated. */
  ghost predicate FailsAt<S, E>(steps: seq<Step<S, E>>, done: nat -> bool, s: S, after: S, r: Result<SagaError<E>>,
                                f: nat) {
    && f < |steps| && Completes(steps, f, s, done)
    && r.failedStep == steps[f].name && r.error.Some?
    && var (t, outcome) := steps[f].execute(Forward(steps, f, s));
    && (done(f) ==> r.error.value.ContextDone? && Undone(steps, f, Forward(steps, f, s), after, r))
    && (!done(f) ==> outcome.Failed() && r.error.value == StepError(outcome.error)
                     && Undone(steps, f, t, after, r))
  }

  /** What a saga run means.  `done(i)` says that the context is done when step `i` is about to start. */
  ghost predicate Means<S, E>(steps: seq<Step<S, E>>, done: nat -> bool, s: S, after: S, r: Result<SagaError<E>>) {
    if r.success then
      && Completes(steps, |steps|, s, done) && after == Forward(steps, |steps|, s)
      && r == Result(true, "", None, [])
    else
      exists f: nat :: FailsAt(steps, done, s, after, r, f)
  }

  lemma {:induction false} UndoShorter<S, E>(steps: seq<Step<S, E>>, fewer: seq<Step<S, E>>, n: nat, s: S)
    requires n <= |fewer| <= |steps| && fewer == steps[..|fewer|]
    ensures Undo(fewer, n, s) == Undo(steps, n, s)
  {
    if n > 0 {
      assert fewer[n - 1] == steps[n - 1];
      UndoShorter(steps, fewer, n - 1,
                  if steps[n - 1].compensate.None? then s else steps[n - 1].compensate.value(s).0);
    }
  }

  lemma {:induction false} UndoPrefix<S, E>(steps: seq<Step<S, E>>, n: nat, s: S)
    requires n <= |steps|
    ensures Undo(steps[..n], n, s) == Undo(steps, n, s)
  {
    UndoShorter(steps, steps[..n], n, s);
  }

  class Orchestrator<S, E> {
    const steps: seq<Step<S, E>>
    var world: S

    constructor (steps: seq<Step<S, E>>, world: S)
      ensures this.steps == steps && this.world == world
    {
      this.steps := steps;
      this.world := world;
    }

    method SafeExecute(step: Step<S, E>) returns (err: Option<E>)
      modifies `world
      ensures world == step.execute(old(world)).0
      ensures var outcome := step.execute(old(world)).1; err == if outcome.Ok? then None else Some(outcome.error)
    {
      var (after, outcome) := step.execute(world);
      world := after;
      match outcome {
        case Ok => err := None;
        case Fails(e) => err := Some(e);
        case Panics(e) => err := Some(e);
      }
    }

    method Compensate(completed: seq<Step<S, E>>) returns (errs: seq<string>)
      modifies `world
      ensures world == Undo(completed, |completed|, old(world)).0
      ensures errs == Undo(completed, |completed|, old(world)).1
    {
      errs := [];
      var i := |completed|;
      while i > 0
        invariant 0 <= i <= |completed|
        invariant Undo(completed, |completed|, old(world)).0 == Undo(completed, i, world).0
        invariant Undo(completed, |completed|, old(world)).1 == errs + Undo(completed, i, world).1
      {
        i := i - 1;
        var step := completed[i];
        if step.compensate.Some? {
          var (after, outcome) := step.compensate.value(world);
          world := after;
          if outcome.Failed() {
            errs := errs + [step.name];
          }
        }
      }
    }

    method Fail(name: string, err: SagaError<E>, completed: seq<Step<S, E>>) returns (r: Result<SagaError<E>>)
      modifies `world
      ensures r.failedStep == name && r.error == Some(err) && !r.success
      ensures world == Undo(completed, |completed|, old(world)).0
      ensures r.compensationErrors == Undo(completed, |completed|, old(world)).1
    {
      var errs := Compensate(completed);
      r := Result(false, name, Some(err), errs);
    }

    /** Run the saga. */
    method Execute(done: nat -> bool) returns (r: Result<SagaError<E>>)
      modifies `world
      ensures Means(steps, done, old(world), world, r)
    {
      var completed: seq<Step<S, E>> := [];
      ghost var start := world;
      for i := 0 to |steps|
        invariant completed == steps[..i]
        invariant world == Forward(steps, i, start) && Completes(steps, i, start, done)
      {
        var step := steps[i];
        var stop: Option<SagaError<E>> := None;
        if done(i) {
          stop := Some(ContextDone);
        } else {
          var err := SafeExecute(step);
          if err.Some? {
            stop := Some(StepError(err.value));
          }
        }
        if stop.Some? {
          UndoPrefix(steps, i, world);
          r := Fail(step.name, stop.value, completed);
          assert FailsAt(steps, done, start, world, r, i);
          return;
        }
        completed := completed + [step];
      }
      r := Result(true, "", None, []);
    }
  }
}
