/** The orchestrated saga: one coordinator that calls each step and, on failure, the compensations. */
module SagaOrchestrator {
  import opened Integers
  import opened Wrappers
  import opened SagaTables
  import opened SagaSteps
  import opened SagaProtocol
  import opened SagaDatabase

  datatype SagaResult =
    | CompletedResult(orderId: nat)
    | CompensatedResult(orderId: nat, failedStep: StepName, reason: Reason)
    | AbortedResult(reason: Reason)

  predicate Agrees(result: SagaResult, stage: Stage) {
    match result
    case CompletedResult(o) => stage == CompletedStage(o)
    case CompensatedResult(o, _, _) => stage == CancelledStage(o)
    case AbortedResult(_) => stage == AbortedStage
  }

  /** `row` is the failure row of `step`, with the reason the caller is told. */
  predicate FailedWith(row: LogRow, step: StepName, reason: Reason) {
    row.outcome == Failure && row.name == StepLabel(step) && row.detail.FailureDetail? && row.detail.reason == reason
  }

  /** `reason` is the reason of the first failure among `rows`, and `step` the step that failed. */
  ghost predicate FirstFailure(rows: seq<LogRow>, step: StepName, reason: Reason) {
    exists i :: 0 <= i < |rows| && FailedWith(rows[i], step, reason) &&
      forall j :: 0 <= j < i ==> rows[j].outcome == Success
  }

  predicate AllSucceeded(rows: seq<LogRow>) {
    forall i :: 0 <= i < |rows| ==> rows[i].outcome == Success
  }

  /** What the caller is told about failures is what the log's new rows say. */
  ghost predicate Reported(result: SagaResult, before: seq<LogRow>, after: seq<LogRow>) {
    && before <= after
    && match result
       case CompletedResult(_) => AllSucceeded(after[|before|..])
       case CompensatedResult(_, step, reason) => FirstFailure(after[|before|..], step, reason)
       case AbortedResult(reason) => FirstFailure(after[|before|..], CreateOrder, reason)
  }

  /** Succeeded rows in front do not change which failure comes first. */
  lemma FailureShifts(result: SagaResult, log: seq<LogRow>, rows: seq<LogRow>, end: seq<LogRow>)
    requires AllSucceeded(rows) && Reported(result, log + rows, end)
    ensures Reported(result, log, end)
  {
    var late, all := end[|log + rows|..], end[|log|..];
    assert all == rows + late;
    if !result.CompletedResult? {
      var step, reason := if result.CompensatedResult? then result.failedStep else CreateOrder, result.reason;
      var i :| 0 <= i < |late| && FailedWith(late[i], step, reason) &&
        forall j :: 0 <= j < i ==> late[j].outcome == Success;
      assert FailedWith(all[|rows| + i], step, reason);
      assert forall j :: 0 <= j < |rows| + i ==> all[j].outcome == Success;
    }
  }

  lemma FirstFailureExtends(log: seq<LogRow>, rows: seq<LogRow>, row: LogRow, end: seq<LogRow>, step: StepName,
    reason: Reason)
    requires AllSucceeded(rows) && FailedWith(row, step, reason) && log + rows + [row] <= end
    ensures log <= end && FirstFailure(end[|log|..], step, reason)
  {
    assert end[|log|..][|rows|] == row;
    assert forall j :: 0 <= j < |rows| ==> end[|log|..][j] == rows[j];
  }

  // One step of the run each, as the orchestrator's code takes it.

  lemma AfterCreate(t: Tables, input: SagaInput, failAt: Option<StepName>)
    ensures var e := CreateOrderEffect(t.core, input, failAt == Some(CreateOrder));
      var row := CreateOrderRow(Orchestration, input, e.result);
      && RunAlone(Orchestrating(Unstarted), t, input, failAt)
        == RunAlone(Orchestrating(if e.result.Ok? then ToReserve(e.result.value) else AbortedStage),
                    Tables(e.core, t.log + [row]), input, failAt)
      && (if e.result.Ok? then row.outcome == Success else FailedWith(row, CreateOrder, e.result.error))
  {
    RunUnfolds(Config(Orchestrating(Unstarted), t), input, failAt);
    hide RunAlone, FitsInt4;
  }

  lemma AfterReserve(o: nat, t: Tables, input: SagaInput, failAt: Option<StepName>)
    ensures var e := ReserveInventoryEffect(t.core, o, input.sku, input.quantity, failAt == Some(ReserveInventory));
      var row := ReserveInventoryRow(Orchestration, o, input.sku, input.quantity, e.result);
      && RunAlone(Orchestrating(ToReserve(o)), t, input, failAt)
        == RunAlone(Orchestrating(if e.result.Ok? then ToCapture(o, e.result.value) else ToCancel(o)),
                    Tables(e.core, t.log + [row]), input, failAt)
      && (if e.result.Ok? then row.outcome == Success else FailedWith(row, ReserveInventory, e.result.error))
  {
    RunUnfolds(Config(Orchestrating(ToReserve(o)), t), input, failAt);
    hide RunAlone, FitsInt4;
  }

  lemma AfterCapture(o: nat, r: ReservationRef, t: Tables, input: SagaInput, failAt: Option<StepName>)
    ensures var e := CapturePaymentEffect(t.core, o, input.amountCents, failAt == Some(CapturePayment));
      var row := CapturePaymentRow(Orchestration, o, input.amountCents, e.result);
      && RunAlone(Orchestrating(ToCapture(o, r)), t, input, failAt)
        == RunAlone(Orchestrating(if e.result.Ok? then ToShip(o, r, e.result.value) else ToRelease(o, r)),
                    Tables(e.core, t.log + [row]), input, failAt)
      && (if e.result.Ok? then row.outcome == Success else FailedWith(row, CapturePayment, e.result.error))
  {
    RunUnfolds(Config(Orchestrating(ToCapture(o, r)), t), input, failAt);
    hide RunAlone, FitsInt4;
  }

  lemma AfterShip(o: nat, r: ReservationRef, p: nat, t: Tables, input: SagaInput, failAt: Option<StepName>)
    ensures var e := CreateShipmentEffect(t.core, o, failAt == Some(CreateShipment));
      var row := CreateShipmentRow(Orchestration, o, e.result);
      && RunAlone(Orchestrating(ToShip(o, r, p)), t, input, failAt)
        == RunAlone(Orchestrating(if e.result.Ok? then ToComplete(o) else ToRefund(o, r, p)),
                    Tables(e.core, t.log + [row]), input, failAt)
      && (if e.result.Ok? then row.outcome == Success else FailedWith(row, CreateShipment, e.result.error))
  {
    RunUnfolds(Config(Orchestrating(ToShip(o, r, p)), t), input, failAt);
    hide RunAlone, FitsInt4;
  }

  lemma AfterComplete(o: nat, t: Tables, input: SagaInput, failAt: Option<StepName>)
    ensures var e := CompleteOrderEffect(t.core, o);
      var row := CompleteOrderRow(Orchestration, o, e.result);
      && RunAlone(Orchestrating(ToComplete(o)), t, input, failAt)
        == RunAlone(Orchestrating(CompletedStage(o)), Tables(e.core, t.log + [row]), input, failAt)
      && (if e.result.Ok? then row.outcome == Success else FailedWith(row, CompleteOrder, e.result.error))
  {
    RunUnfolds(Config(Orchestrating(ToComplete(o)), t), input, failAt);
    hide RunAlone, FitsInt4;
  }

  method RunOrderSaga(db: Database, input: SagaInput, failAt: Option<StepName>) returns (result: SagaResult)
    modifies db
    ensures var end := RunAlone(Orchestrating(Unstarted), old(db.View()), input, failAt);
      db.View() == end.tables && Agrees(result, StageOf(end.phase))
    ensures Reported(result, old(db.sagaLog), db.sagaLog)
  {
    hide RunAlone, FirstFailure, FailedWith,
      CreateOrderEffect, ReserveInventoryEffect, CreateOrderRow, ReserveInventoryRow;
    ghost var log := db.sagaLog;
    ghost var rows := [];

    AfterCreate(db.View(), input, failAt);
    var created := db.CreateOrderStep(Orchestration, input, failAt == Some(CreateOrder));
    ghost var row := CreateOrderRow(Orchestration, input, created);
    if created.Err? {
      RunEnds(Config(Orchestrating(AbortedStage), db.View()), input, failAt);
      FirstFailureExtends(log, rows, row, db.sagaLog, CreateOrder, created.error);
      return AbortedResult(created.error);
    }
    var order := created.value;
    rows := rows + [row];
    assert db.sagaLog == log + rows;

    AfterReserve(order, db.View(), input, failAt);
    var reserved :=
      db.ReserveInventoryStep(Orchestration, order, input.sku, input.quantity, failAt == Some(ReserveInventory));
    row := ReserveInventoryRow(Orchestration, order, input.sku, input.quantity, reserved);
    if reserved.Err? {
      CancelTheOrder(db, order, input, failAt);
      FirstFailureExtends(log, rows, row, db.sagaLog, ReserveInventory, reserved.error);
      return CompensatedResult(order, ReserveInventory, reserved.error);
    }
    var reservation := reserved.value;
    rows := rows + [row];
    assert db.sagaLog == log + rows;

    result := PayShipAndComplete(db, order, reservation, input, failAt);
    FailureShifts(result, log, rows, db.sagaLog);
  }

  /** The rest of the saga once the order exists and its inventory is reserved. */
  method PayShipAndComplete(db: Database, order: nat, reservation: ReservationRef, input: SagaInput,
    failAt: Option<StepName>)
    returns (result: SagaResult)
    modifies db
    ensures var end := RunAlone(Orchestrating(ToCapture(order, reservation)), old(db.View()), input, failAt);
      db.View() == end.tables && Agrees(result, StageOf(end.phase))
    ensures Reported(result, old(db.sagaLog), db.sagaLog)
  {
    hide RunAlone, FirstFailure, FailedWith,
      CapturePaymentEffect, CreateShipmentEffect, CapturePaymentRow, CreateShipmentRow;
    ghost var log := db.sagaLog;
    ghost var rows := [];
    ghost var row;

    AfterCapture(order, reservation, db.View(), input, failAt);
    var paid := db.CapturePaymentStep(Orchestration, order, input.amountCents, failAt == Some(CapturePayment));
    row := CapturePaymentRow(Orchestration, order, input.amountCents, paid);
    if paid.Err? {
      ReleaseAndCancel(db, order, reservation, input, failAt);
      FirstFailureExtends(log, rows, row, db.sagaLog, CapturePayment, paid.error);
      return CompensatedResult(order, CapturePayment, paid.error);
    }
    var payment := paid.value;
    rows := rows + [row];
    assert db.sagaLog == log + rows;

    AfterShip(order, reservation, payment, db.View(), input, failAt);
    var shipped := db.CreateShipmentStep(Orchestration, order, failAt == Some(CreateShipment));
    row := CreateShipmentRow(Orchestration, order, shipped);
    if shipped.Err? {
      RefundReleaseAndCancel(db, order, reservation, payment, input, failAt);
      FirstFailureExtends(log, rows, row, db.sagaLog, CreateShipment, shipped.error);
      return CompensatedResult(order, CreateShipment, shipped.error);
    }
    rows := rows + [row];
    assert db.sagaLog == log + rows;

    AfterComplete(order, db.View(), input, failAt);
    var done := db.CompleteOrderStep(Orchestration, order);
    row := CompleteOrderRow(Orchestration, order, done);
    RunEnds(Config(Orchestrating(CompletedStage(order)), db.View()), input, failAt);
    rows := rows + [row];
    assert db.sagaLog == log + rows;
    return CompletedResult(order);
  }

  lemma RunEnds(at: Config, input: SagaInput, failAt: Option<StepName>)
    requires at.phase.Finished()
    ensures RunAlone(at.phase, at.tables, input, failAt) == at
  {
  }

  // The compensations of each failure branch, in reverse order of the steps that had succeeded.

  method RefundReleaseAndCancel(db: Database, order: nat, reservation: ReservationRef, payment: nat,
                                ghost input: SagaInput, ghost failAt: Option<StepName>)
    modifies db
    ensures RunAlone(Orchestrating(ToRefund(order, reservation, payment)), old(db.View()), input, failAt)
      == Config(Orchestrating(CancelledStage(order)), db.View())
    ensures old(db.sagaLog) <= db.sagaLog
  {
    hide RunAlone;
    ghost var start := Config(Orchestrating(ToRefund(order, reservation, payment)), db.View());
    RunUnfolds(start, input, failAt);
    var refunded := db.RefundPaymentStep(Orchestration, order, payment);
    assert Settle(Step(start.phase, start.tables, input, failAt))
      == Config(Orchestrating(ToRelease(order, reservation)), db.View());
    ReleaseAndCancel(db, order, reservation, input, failAt);
  }

  method ReleaseAndCancel(db: Database, order: nat, reservation: ReservationRef,
                          ghost input: SagaInput, ghost failAt: Option<StepName>)
    modifies db
    ensures RunAlone(Orchestrating(ToRelease(order, reservation)), old(db.View()), input, failAt)
      == Config(Orchestrating(CancelledStage(order)), db.View())
    ensures old(db.sagaLog) <= db.sagaLog
  {
    hide RunAlone;
    ghost var start := Config(Orchestrating(ToRelease(order, reservation)), db.View());
    RunUnfolds(start, input, failAt);
    var released := db.ReleaseInventoryStep(Orchestration, order, reservation);
    assert Settle(Step(start.phase, start.tables, input, failAt)) == Config(Orchestrating(ToCancel(order)), db.View());
    CancelTheOrder(db, order, input, failAt);
  }

  method CancelTheOrder(db: Database, order: nat, ghost input: SagaInput, ghost failAt: Option<StepName>)
    modifies db
    ensures RunAlone(Orchestrating(ToCancel(order)), old(db.View()), input, failAt)
      == Config(Orchestrating(CancelledStage(order)), db.View())
    ensures old(db.sagaLog) <= db.sagaLog
  {
    hide RunAlone;
    ghost var start := Config(Orchestrating(ToCancel(order)), db.View());
    RunUnfolds(start, input, failAt);
    var cancelled := db.CancelOrderStep(Orchestration, order);
    assert Settle(Step(start.phase, start.tables, input, failAt))
      == Config(Orchestrating(CancelledStage(order)), db.View());
    RunEnds(Config(Orchestrating(CancelledStage(order)), db.View()), input, failAt);
  }
}
