/** The create-order saga: reserve the payment, reserve the stock, confirm the order. */
module OrderSaga {
  import opened Options
  import opened Saga

  /** What has been acknowledged of the calls made for one order, together with the two ids that the steps capture.
      Reserves are those that returned without an error, cancels the successful ones; confirmations are committed status
      updates with their event. */
  datatype Ledger = Ledger(
    paymentID: string, reservationID: string,
    payReserves: nat, payCancels: nat,
    stockReserves: nat, stockCancels: nat,
    confirms: nat, cancellations: nat)

  /** An error of a step; `open` says that it wraps the breaker's ErrOpen. */
  datatype StepFailure = StepFailure(open: bool)

  /** How a reservation call ends. */
  datatype Reply = Reserved(id: string) | Refused(open: bool) | Crashed

  /** Everything the environment decides during one attempt: the replies, whether the status update commits, whether
      the two cancel calls succeed, and before which steps the context is done. */
  datatype Env =
    Env(pay: Reply, stock: Reply, confirmOk: bool, payCancelOk: bool, stockCancelOk: bool, done: nat -> bool)

  function Ended(ok: bool): Outcome<StepFailure> {
    if ok then Ok else Fails(StepFailure(false))
  }

  function ReservePayment(env: Env, l: Ledger): (Ledger, Outcome<StepFailure>) {
    match env.pay
    case Reserved(id) => (l.(paymentID := id, payReserves := l.payReserves + 1), Ok)
    case Refused(open) => (l, Fails(StepFailure(open)))
    case Crashed => (l, Panics(StepFailure(false)))
  }

  function CancelPayment(env: Env, l: Ledger): (Ledger, Outcome<StepFailure>) {
    if l.paymentID == "" then (l, Ok)
    else if env.payCancelOk then (l.(payCancels := l.payCancels + 1), Ok)
    else (l, Ended(false))
  }

  function ReserveStock(env: Env, l: Ledger): (Ledger, Outcome<StepFailure>) {
    match env.stock
    case Reserved(id) => (l.(reservationID := id, stockReserves := l.stockReserves + 1), Ok)
    case Refused(open) => (l, Fails(StepFailure(open)))
    case Crashed => (l, Panics(StepFailure(false)))
  }

  function CancelStock(env: Env, l: Ledger): (Ledger, Outcome<StepFailure>) {
    if l.reservationID == "" then (l, Ok)
    else if env.stockCancelOk then (l.(stockCancels := l.stockCancels + 1), Ok)
    else (l, Ended(false))
  }

  /** The status update and its event are one transaction of their own. */
  function ConfirmOrder(env: Env, l: Ledger): (Ledger, Outcome<StepFailure>) {
    (if env.confirmOk then l.(confirms := l.confirms + 1) else l, Ended(env.confirmOk))
  }

  function CancelOrder(env: Env, l: Ledger): (Ledger, Outcome<StepFailure>) {
    (l.(cancellations := l.cancellations + 1), Ok)
  }

  function OrderSteps(env: Env): seq<Step<Ledger, StepFailure>> {
    [Step("reserve-payment", l => ReservePayment(env, l), Some(l => CancelPayment(env, l))),
     Step("reserve-inventory", l => ReserveStock(env, l), Some(l => CancelStock(env, l))),
     Step("confirm-order", l => ConfirmOrder(env, l), Some(l => CancelOrder(env, l)))]
  }

  /** How far an attempt gets. */
  predicate PayReserved(env: Env) { !env.done(0) && env.pay.Reserved? }
  predicate StockReserved(env: Env) { PayReserved(env) && !env.done(1) && env.stock.Reserved? }
  predicate OrderConfirmed(env: Env) { StockReserved(env) && !env.done(2) && env.confirmOk }

  /** The failing step's error wraps ErrOpen. */
  predicate FailsOpen(env: Env) {
    || (!env.done(0) && env.pay.Refused? && env.pay.open)
    || (PayReserved(env) && !env.done(1) && env.stock.Refused? && env.stock.open)
  }

  function PayHeld(l: Ledger): int { l.payReserves - l.payCancels }
  function StockHeld(l: Ledger): int { l.stockReserves - l.stockCancels }

  function One(b: bool): nat { if b then 1 else 0 }

  /** A reservation survives a failed attempt when it cannot be cancelled. */
  predicate PayLeft(env: Env) { PayReserved(env) && (env.pay.id == "" || !env.payCancelOk) }
  predicate StockLeft(env: Env) { StockReserved(env) && (env.stock.id == "" || !env.stockCancelOk) }

  /** The effect of one attempt, for every behaviour of the environment. */
  ghost predicate AttemptEffect(env: Env, before: Ledger, after: Ledger, err: Option<StepFailure>) {
    && (err.None? <==> OrderConfirmed(env))
    && (err.Some? ==> (err.value.open <==> FailsOpen(env)))
    && after.confirms == before.confirms + One(OrderConfirmed(env))
    && after.cancellations == before.cancellations
    && PayHeld(after) == PayHeld(before) + One(OrderConfirmed(env) || PayLeft(env))
    && StockHeld(after) == StockHeld(before) + One(OrderConfirmed(env) || StockLeft(env))
  }

  function ErrorOf(r: Result<SagaError<StepFailure>>): Option<StepFailure> {
    if r.success then None
    else if r.error.Some? && r.error.value.StepError? then Some(r.error.value.error)
    else Some(StepFailure(false))
  }

  /** The ledger before each step, as long as the steps before it succeed. */
  lemma ForwardOrder(env: Env, before: Ledger)
    ensures var steps := OrderSteps(env); var l1 := ReservePayment(env, before).0; var l2 := ReserveStock(env, l1).0;
            && Forward(steps, 0, before) == before && Forward(steps, 1, before) == l1 && Forward(steps, 2, before) == l2
            && Forward(steps, 3, before) == ConfirmOrder(env, l2).0
  {
    var steps := OrderSteps(env);
    assert Forward(steps, 1, before) == ReservePayment(env, Forward(steps, 0, before)).0;
    assert Forward(steps, 2, before) == ReserveStock(env, Forward(steps, 1, before)).0;
    assert Forward(steps, 3, before) == ConfirmOrder(env, Forward(steps, 2, before)).0;
  }

  /** Which steps complete. */
  lemma CompletesOrder(env: Env, before: Ledger)
    ensures var steps := OrderSteps(env);
            && (Completes(steps, 1, before, env.done) <==> PayReserved(env))
            && (Completes(steps, 2, before, env.done) <==> StockReserved(env))
            && (Completes(steps, 3, before, env.done) <==> OrderConfirmed(env))
  {
    var steps := OrderSteps(env);
    ForwardOrder(env, before);
    assert Completes(steps, 0, before, env.done);
    assert Completes(steps, 2, before, env.done) <==>
        Completes(steps, 1, before, env.done) && !env.done(1) && steps[1].execute(Forward(steps, 1, before)).1.Ok?;
    assert Completes(steps, 3, before, env.done) <==>
        Completes(steps, 2, before, env.done) && !env.done(2) && steps[2].execute(Forward(steps, 2, before)).1.Ok?;
  }

  /** Compensating the first `f` order steps, spelled out. */
  lemma UndoOrder(env: Env, f: nat, l: Ledger)
    requires f <= 2
    ensures var steps := OrderSteps(env);
            Undo(steps, f, l).0 ==
            if f == 0 then l else if f == 1 then CancelPayment(env, l).0
            else CancelPayment(env, CancelStock(env, l).0).0
  {
    var steps := OrderSteps(env);
    assert Undo(steps, 1, l).0 == CancelPayment(env, l).0;
    var t := CancelStock(env, l).0;
    assert Undo(steps, 1, t).0 == CancelPayment(env, t).0;
  }

  lemma PaymentFailed(env: Env, before: Ledger, after: Ledger, r: Result<SagaError<StepFailure>>)
    requires FailsAt(OrderSteps(env), env.done, before, after, r, 0) && !r.success
    ensures AttemptEffect(env, before, after, ErrorOf(r))
  {
    ForwardOrder(env, before);
    CompletesOrder(env, before);
    UndoOrder(env, 0, before);
  }

  lemma StockFailed(env: Env, before: Ledger, after: Ledger, r: Result<SagaError<StepFailure>>)
    requires FailsAt(OrderSteps(env), env.done, before, after, r, 1) && !r.success
    ensures AttemptEffect(env, before, after, ErrorOf(r))
  {
    ForwardOrder(env, before);
    CompletesOrder(env, before);
    UndoOrder(env, 1, ReservePayment(env, before).0);
  }

  lemma ConfirmFailed(env: Env, before: Ledger, after: Ledger, r: Result<SagaError<StepFailure>>)
    requires FailsAt(OrderSteps(env), env.done, before, after, r, 2) && !r.success
    ensures AttemptEffect(env, before, after, ErrorOf(r))
  {
    ForwardOrder(env, before);
    CompletesOrder(env, before);
    UndoOrder(env, 2, ReserveStock(env, ReservePayment(env, before).0).0);
  }

  lemma AttemptMeans(env: Env, before: Ledger, after: Ledger, r: Result<SagaError<StepFailure>>)
    requires Means(OrderSteps(env), env.done, before, after, r)
    ensures AttemptEffect(env, before, after, ErrorOf(r))
  {
    if r.success {
      ForwardOrder(env, before);
      CompletesOrder(env, before);
    } else {
      var f: nat :| FailsAt(OrderSteps(env), env.done, before, after, r, f);
      if f == 0 {
        PaymentFailed(env, before, after, r);
      } else if f == 1 {
        StockFailed(env, before, after, r);
      } else {
        ConfirmFailed(env, before, after, r);
      }
    }
  }

  /** One command processed for an order whose ids have not been captured yet. */
  method ProcessCommand(env: Env, before: Ledger) returns (err: Option<StepFailure>, after: Ledger)
    ensures AttemptEffect(env, before, after, err)
  {
    var start := before.(paymentID := "", reservationID := "");
    var orchestrator := new Orchestrator<Ledger, StepFailure>(OrderSteps(env), start);
    var result := orchestrator.Execute(env.done);
    AttemptMeans(env, start, orchestrator.world, result);
    after := orchestrator.world;
    err := ErrorOf(result);
  }

  /** The environment lets every compensation do its job. */
  predicate Compensable(env: Env) {
    && env.payCancelOk && env.stockCancelOk
    && (env.pay.Reserved? ==> env.pay.id != "") && (env.stock.Reserved? ==> env.stock.id != "")
  }

  /** Then an attempt holds both reservations if it confirmed the order, and neither otherwise. */
  lemma AttemptBalanced(env: Env, before: Ledger, after: Ledger, err: Option<StepFailure>)
    requires AttemptEffect(env, before, after, err) && Compensable(env)
    ensures PayHeld(after) - PayHeld(before) == StockHeld(after) - StockHeld(before) == One(err.None?)
  {
  }

  /** Exactly when a failed attempt leaves a reservation behind. */
  lemma FailureLeaves(env: Env, before: Ledger, after: Ledger, err: Option<StepFailure>)
    requires AttemptEffect(env, before, after, err) && err.Some?
    ensures PayHeld(after) == PayHeld(before) && StockHeld(after) == StockHeld(before) <==>
              !PayLeft(env) && !StockLeft(env)
  {
  }
}
