/** Which way a lone saga ends, what it leaves in every table, and every row it logs, from its input alone. */
module SagaOutcome {
  import opened Wrappers
  import opened SagaTables
  import opened SagaSteps
  import opened SagaProtocol
  import opened SagaEquivalence

  /** The step at which a saga stops, and why; or that it completes. */
  datatype Ending =
    | NotCreated(why: Reason)
    | NotReserved(why: Reason)
    | NotPaid
    | NotShipped
    | Completes

  function EndingOf(c: Core, input: SagaInput, failAt: Option<StepName>): Ending {
    if failAt == Some(CreateOrder) then NotCreated(Simulated)
    else if !(-2147483648 <= input.amountCents <= 2147483647) then NotCreated(OutOfRange)
    else if input.amountCents < 1 then NotCreated(CheckViolated)
    else if failAt == Some(ReserveInventory) then NotReserved(Simulated)
    else if input.sku !in c.skuIndex || c.skuIndex[input.sku] !in c.items then NotReserved(UnknownSku(input.sku))
    else
      var have := c.items[c.skuIndex[input.sku]].available;
      if have < input.quantity then NotReserved(InsufficientInventory(have, input.quantity))
      else if input.quantity < -2147483648 || have - input.quantity > 2147483647 then NotReserved(OutOfRange)
      else if input.quantity < 1 then NotReserved(CheckViolated)
      else if failAt == Some(CapturePayment) then NotPaid
      else if failAt == Some(CreateShipment) then NotShipped
      else Completes
  }

  function StageAtEnd(o: nat, end: Ending): Stage {
    match end
    case NotCreated(_) => AbortedStage
    case Completes => CompletedStage(o)
    case _ => CancelledStage(o)
  }

  /** The rows the saga has added or changed in the five business tables, and the ids it has drawn. */
  ghost predicate Leaves(c: Core, d: Core, input: SagaInput, end: Ending) {
    var o, r, p := c.nextOrder, c.nextReservation, c.nextPayment;
    && (GotReservation(end) ==> input.sku in c.skuIndex && c.skuIndex[input.sku] in c.items)
    && d.orders ==
        (if end.NotCreated? then c.orders
         else
           var status := if end.Completes? then Completed else Cancelled;
           c.orders[o := Order(input.customerName, input.amountCents, status)])
    && d.items ==
        (if !end.Completes? then c.items
         else
           var i := c.skuIndex[input.sku];
           c.items[i := Item(c.items[i].sku, c.items[i].available - input.quantity)])
    && d.reservations ==
        (if !GotReservation(end) then c.reservations
         else c.reservations[r := Reservation(o, c.skuIndex[input.sku], input.quantity,
                                              if end.Completes? then Reserved else Released)])
    && d.payments ==
        (if end.NotShipped? then c.payments[p := Payment(o, input.amountCents, Refunded)]
         else if end.Completes? then c.payments[p := Payment(o, input.amountCents, Captured)]
         else c.payments)
    && d.shipments == (if end.Completes? then c.shipments[c.nextShipment := Shipment(o)] else c.shipments)
    && d.skuIndex == c.skuIndex && IdsDrawn(c, d, end)
  }

  /** A row that a CHECK turned away has still drawn its id. */
  predicate IdsDrawn(c: Core, d: Core, end: Ending) {
    && d.nextOrder == (if end.NotCreated? && end.why != CheckViolated then c.nextOrder else c.nextOrder + 1)
    && d.nextReservation == (if GotReservation(end) || end == NotReserved(CheckViolated) then c.nextReservation + 1
                             else c.nextReservation)
    && d.nextPayment == (if end.NotShipped? || end.Completes? then c.nextPayment + 1 else c.nextPayment)
    && d.nextShipment == (if end.Completes? then c.nextShipment + 1 else c.nextShipment)
  }

  // ---- Log rows, written out ----

  function Did(m: Mechanism, o: nat, step: StepName, direction: Direction, detail: Detail): LogRow {
    LogRow(Some(o), m, StepLabel(step), direction, Success, detail)
  }

  function FailedTo(m: Mechanism, o: nat, step: StepName, detail: Detail, why: Reason): LogRow {
    LogRow(Some(o), m, StepLabel(step), Forward, Failure, FailureDetail(detail, why))
  }

  function NotCreatedRow(m: Mechanism, input: SagaInput, why: Reason): LogRow {
    LogRow(None, m, StepLabel(CreateOrder), Forward, Failure, FailureDetail(CustomerDetail(input.customerName), why))
  }

  function CreatedRow(m: Mechanism, o: nat, input: SagaInput): LogRow {
    Did(m, o, CreateOrder, Forward, OrderDetail(input.customerName, input.amountCents))
  }

  function RefOf(c: Core, input: SagaInput): ReservationRef
    requires input.sku in c.skuIndex
  {
    ReservationRef(c.nextReservation, c.skuIndex[input.sku], input.quantity)
  }

  predicate GotReservation(end: Ending) {
    end.NotPaid? || end.NotShipped? || end.Completes?
  }

  /** The orchestrator's rows. */
  function OrchestratedRows(c: Core, input: SagaInput, end: Ending): seq<LogRow>
    requires GotReservation(end) ==> input.sku in c.skuIndex
  {
    if end.NotCreated? then [NotCreatedRow(Orchestration, input, end.why)]
    else [CreatedRow(Orchestration, c.nextOrder, input)] + OrchestratedFromReserve(c, input, end)
  }

  function OrchestratedFromReserve(c: Core, input: SagaInput, end: Ending): seq<LogRow>
    requires !end.NotCreated? && (GotReservation(end) ==> input.sku in c.skuIndex)
  {
    var m, o, sku := Orchestration, c.nextOrder, SkuDetail(input.sku, input.quantity);
    if end.NotReserved? then
      [FailedTo(m, o, ReserveInventory, sku, end.why)] + [Did(m, o, CancelOrder, Compensate, NoDetail)]
    else [Did(m, o, ReserveInventory, Forward, sku)] + OrchestratedFromPayment(c, input, end)
  }

  function OrchestratedFromPayment(c: Core, input: SagaInput, end: Ending): seq<LogRow>
    requires input.sku in c.skuIndex
  {
    var m, o, cents := Orchestration, c.nextOrder, AmountDetail(input.amountCents);
    if end.NotPaid? then
      [FailedTo(m, o, CapturePayment, cents, Simulated)]
      + [Did(m, o, ReleaseInventory, Compensate, ReservationDetail(RefOf(c, input))),
         Did(m, o, CancelOrder, Compensate, NoDetail)]
    else if end.NotShipped? then
      [Did(m, o, CapturePayment, Forward, cents)]
      + [FailedTo(m, o, CreateShipment, NoDetail, Simulated),
         Did(m, o, RefundPayment, Compensate, PaymentDetail(c.nextPayment)),
         Did(m, o, ReleaseInventory, Compensate, ReservationDetail(RefOf(c, input))),
         Did(m, o, CancelOrder, Compensate, NoDetail)]
    else
      [Did(m, o, CapturePayment, Forward, cents)]
      + [Did(m, o, CreateShipment, Forward, NoDetail), Did(m, o, CompleteOrder, Forward, NoDetail)]
  }

  lemma Regroup(log: seq<LogRow>, a: seq<LogRow>, b: seq<LogRow>)
    ensures (log + a) + b == log + (a + b)
  {
  }

  // ---- The orchestrator's run ----

  /** One orchestrator step with both of its outcomes settled. */
  lemma Unfold(stage: Stage, t: Tables, input: SagaInput, failAt: Option<StepName>)
    requires !stage.Final()
    ensures var next := Settle(OrchestratorStep(stage, t, input, failAt));
      RunAlone(Orchestrating(stage), t, input, failAt) == RunAlone(next.phase, next.tables, input, failAt)
  {
    RunUnfolds(Config(Orchestrating(stage), t), input, failAt);
    hide RunAlone, OrchestratorStep;
  }

  lemma CancelRun(o: nat, t: Tables, input: SagaInput, failAt: Option<StepName>)
    requires o in t.core.orders
    ensures RunAlone(Orchestrating(ToCancel(o)), t, input, failAt)
      == Config(Orchestrating(CancelledStage(o)),
                Tables(t.core.(orders := t.core.orders[o := t.core.orders[o].(status := Cancelled)]),
                       t.log + [Did(Orchestration, o, CancelOrder, Compensate, NoDetail)]))
  {
    Unfold(ToCancel(o), t, input, failAt);
  }

  /** What a release leaves of the tables. */
  function AfterRelease(c: Core, o: nat, ref: ReservationRef): Core
    requires o in c.orders && ref.itemId in c.items && ref.reservationId in c.reservations
  {
    c.(items := c.items[ref.itemId := c.items[ref.itemId].(available := c.items[ref.itemId].available + ref.quantity)],
       reservations := c.reservations[ref.reservationId := c.reservations[ref.reservationId].(status := Released)],
       orders := c.orders[o := c.orders[o].(status := Cancelled)])
  }

  predicate CanRelease(c: Core, o: nat, ref: ReservationRef) {
    && o in c.orders && ref.itemId in c.items && ref.reservationId in c.reservations
    && 1 <= ref.quantity && 0 <= c.items[ref.itemId].available
    && c.items[ref.itemId].available + ref.quantity <= 2147483647
  }

  lemma ReleaseRun(o: nat, ref: ReservationRef, t: Tables, input: SagaInput, failAt: Option<StepName>)
    requires CanRelease(t.core, o, ref)
    ensures RunAlone(Orchestrating(ToRelease(o, ref)), t, input, failAt)
      == Config(Orchestrating(CancelledStage(o)),
                Tables(AfterRelease(t.core, o, ref),
                       t.log + [Did(Orchestration, o, ReleaseInventory, Compensate, ReservationDetail(ref)),
                                Did(Orchestration, o, CancelOrder, Compensate, NoDetail)]))
  {
    Unfold(ToRelease(o, ref), t, input, failAt);
    var next := Settle(OrchestratorStep(ToRelease(o, ref), t, input, failAt));
    assert next.phase == Orchestrating(ToCancel(o));
    CancelRun(o, next.tables, input, failAt);
    hide RunAlone;
  }

  lemma CompleteRun(o: nat, t: Tables, input: SagaInput, failAt: Option<StepName>)
    requires o in t.core.orders
    ensures RunAlone(Orchestrating(ToComplete(o)), t, input, failAt)
      == Config(Orchestrating(CompletedStage(o)),
                Tables(t.core.(orders := t.core.orders[o := t.core.orders[o].(status := Completed)]),
                       t.log + [Did(Orchestration, o, CompleteOrder, Forward, NoDetail)]))
  {
    Unfold(ToComplete(o), t, input, failAt);
  }

  function Refunding(c: Core, p: nat): Core
    requires p in c.payments
  {
    c.(payments := c.payments[p := c.payments[p].(status := Refunded)])
  }

  lemma RefundRun(o: nat, ref: ReservationRef, p: nat, t: Tables, input: SagaInput, failAt: Option<StepName>)
    requires CanRelease(t.core, o, ref) && p in t.core.payments
    ensures RunAlone(Orchestrating(ToRefund(o, ref, p)), t, input, failAt)
      == Config(Orchestrating(CancelledStage(o)),
                Tables(AfterRelease(Refunding(t.core, p), o, ref),
                       t.log + [Did(Orchestration, o, RefundPayment, Compensate, PaymentDetail(p)),
                                Did(Orchestration, o, ReleaseInventory, Compensate, ReservationDetail(ref)),
                                Did(Orchestration, o, CancelOrder, Compensate, NoDetail)]))
  {
    Unfold(ToRefund(o, ref, p), t, input, failAt);
    var next := Settle(OrchestratorStep(ToRefund(o, ref, p), t, input, failAt));
    assert next.phase == Orchestrating(ToRelease(o, ref));
    ReleaseRun(o, ref, next.tables, input, failAt);
    hide RunAlone;
  }

  lemma ShipRun(o: nat, ref: ReservationRef, p: nat, t: Tables, input: SagaInput, failAt: Option<StepName>)
    requires CanRelease(t.core, o, ref) && p in t.core.payments
    ensures RunAlone(Orchestrating(ToShip(o, ref, p)), t, input, failAt)
      == if failAt == Some(CreateShipment) then
           Config(Orchestrating(CancelledStage(o)),
                  Tables(AfterRelease(Refunding(t.core, p), o, ref),
                         t.log + [FailedTo(Orchestration, o, CreateShipment, NoDetail, Simulated),
                                  Did(Orchestration, o, RefundPayment, Compensate, PaymentDetail(p)),
                                  Did(Orchestration, o, ReleaseInventory, Compensate, ReservationDetail(ref)),
                                  Did(Orchestration, o, CancelOrder, Compensate, NoDetail)]))
         else
           Config(Orchestrating(CompletedStage(o)),
                  Tables(t.core.(orders := t.core.orders[o := t.core.orders[o].(status := Completed)],
                                 shipments := t.core.shipments[t.core.nextShipment := Shipment(o)],
                                 nextShipment := t.core.nextShipment + 1),
                         t.log + [Did(Orchestration, o, CreateShipment, Forward, NoDetail),
                                  Did(Orchestration, o, CompleteOrder, Forward, NoDetail)]))
  {
    Unfold(ToShip(o, ref, p), t, input, failAt);
    var next := Settle(OrchestratorStep(ToShip(o, ref, p), t, input, failAt));
    if failAt == Some(CreateShipment) {
      assert next.phase == Orchestrating(ToRefund(o, ref, p));
      RefundRun(o, ref, p, next.tables, input, failAt);
    } else {
      assert next.phase == Orchestrating(ToComplete(o));
      CompleteRun(o, next.tables, input, failAt);
    }
    hide RunAlone;
  }

  /** The tables once the order is created and its reservation made. */
  ghost function ReservedCore(c: Core, input: SagaInput): Core
    requires SkusIndexed(c) && input.sku in c.skuIndex
  {
    var i := c.skuIndex[input.sku];
    c.(orders := c.orders[c.nextOrder := Order(input.customerName, input.amountCents, Pending)],
       nextOrder := c.nextOrder + 1,
       items := c.items[i := c.items[i].(available := c.items[i].available - input.quantity)],
       reservations := c.reservations[c.nextReservation := Reservation(c.nextOrder, i, input.quantity, Reserved)],
       nextReservation := c.nextReservation + 1)
  }

  ghost function PaidCore(c: Core, input: SagaInput, status: PaymentStatus): Core
    requires SkusIndexed(c) && input.sku in c.skuIndex
  {
    ReservedCore(c, input).(payments := c.payments[c.nextPayment := Payment(c.nextOrder, input.amountCents, status)],
                            nextPayment := c.nextPayment + 1)
  }

  ghost predicate Reserves(c: Core, input: SagaInput, end: Ending) {
    && WellFormed(c) && SkusIndexed(c) && GotReservation(end)
    && input.sku in c.skuIndex && 1 <= input.amountCents <= 2147483647
    && 1 <= input.quantity <= c.items[c.skuIndex[input.sku]].available
  }

  ghost function EndCore(c: Core, input: SagaInput, end: Ending): Core
    requires Reserves(c, input, end)
  {
    var o, ref := c.nextOrder, RefOf(c, input);
    if end.NotPaid? then AfterRelease(ReservedCore(c, input), o, ref)
    else if end.NotShipped? then AfterRelease(PaidCore(c, input, Refunded), o, ref)
    else
      var d := PaidCore(c, input, Captured);
      d.(orders := d.orders[o := d.orders[o].(status := Completed)],
         shipments := d.shipments[d.nextShipment := Shipment(o)],
         nextShipment := d.nextShipment + 1)
  }

  lemma ReleaseRestores(c: Core, input: SagaInput, end: Ending)
    requires Reserves(c, input, end)
    ensures var d := AfterRelease(ReservedCore(c, input), c.nextOrder, RefOf(c, input));
      && d.orders == c.orders[c.nextOrder := Order(input.customerName, input.amountCents, Cancelled)]
      && d.items == c.items
      && d.reservations == c.reservations[c.nextReservation :=
           Reservation(c.nextOrder, c.skuIndex[input.sku], input.quantity, Released)]
      && d == c.(orders := d.orders, reservations := d.reservations, nextOrder := c.nextOrder + 1,
                 nextReservation := c.nextReservation + 1)
    ensures var d, p := AfterRelease(PaidCore(c, input, Refunded), c.nextOrder, RefOf(c, input)), c.nextPayment;
      d == AfterRelease(ReservedCore(c, input), c.nextOrder, RefOf(c, input)).(
        payments := c.payments[p := Payment(c.nextOrder, input.amountCents, Refunded)], nextPayment := p + 1)
  {
  }

  lemma EndCoreLeaves(c: Core, input: SagaInput, end: Ending)
    requires Reserves(c, input, end)
    ensures Leaves(c, EndCore(c, input, end), input, end)
  {
    if !end.Completes? {
      hide AfterRelease;
      ReleaseRestores(c, input, end);
    }
  }

  lemma ReservedCanRelease(c: Core, input: SagaInput, end: Ending)
    requires Reserves(c, input, end)
    ensures CanRelease(ReservedCore(c, input), c.nextOrder, RefOf(c, input))
    ensures CanRelease(PaidCore(c, input, Captured), c.nextOrder, RefOf(c, input))
    ensures c.nextPayment in PaidCore(c, input, Captured).payments
    ensures var d := PaidCore(c, input, Captured);
      d.(payments := d.payments[c.nextPayment := d.payments[c.nextPayment].(status := Refunded)])
        == PaidCore(c, input, Refunded)
  {
    var d, p := PaidCore(c, input, Captured), c.nextPayment;
    assert d.payments[p := d.payments[p].(status := Refunded)] == PaidCore(c, input, Refunded).payments;
  }

  /** The payment step, with its row. */
  lemma PaySettles(c: Core, log: seq<LogRow>, input: SagaInput, failAt: Option<StepName>, end: Ending)
    requires Reserves(c, input, end) && end == EndingOf(c, input, failAt)
    ensures var o, ref, cents := c.nextOrder, RefOf(c, input), AmountDetail(input.amountCents);
      Settle(OrchestratorStep(ToCapture(o, ref), Tables(ReservedCore(c, input), log), input, failAt))
        == if end.NotPaid? then
             Config(Orchestrating(ToRelease(o, ref)),
                    Tables(ReservedCore(c, input),
                           log + [FailedTo(Orchestration, o, CapturePayment, cents, Simulated)]))
           else
             Config(Orchestrating(ToShip(o, ref, c.nextPayment)),
                    Tables(PaidCore(c, input, Captured), log + [Did(Orchestration, o, CapturePayment, Forward, cents)]))
  {
  }

  /** From the payment on. */
  lemma PayRun(c: Core, log: seq<LogRow>, input: SagaInput, failAt: Option<StepName>, end: Ending)
    requires Reserves(c, input, end) && end == EndingOf(c, input, failAt)
    ensures RunAlone(Orchestrating(ToCapture(c.nextOrder, RefOf(c, input))), Tables(ReservedCore(c, input), log),
                     input, failAt)
      == Config(Orchestrating(StageAtEnd(c.nextOrder, end)),
                Tables(EndCore(c, input, end), log + OrchestratedFromPayment(c, input, end)))
  {
    var o, ref, t := c.nextOrder, RefOf(c, input), Tables(ReservedCore(c, input), log);
    Unfold(ToCapture(o, ref), t, input, failAt);
    PaySettles(c, log, input, failAt, end);
    ReservedCanRelease(c, input, end);
    var next := Settle(OrchestratorStep(ToCapture(o, ref), t, input, failAt));
    assert end.NotShipped? <==> !end.NotPaid? && failAt == Some(CreateShipment);
    var row := next.tables.log[|log|];
    assert next.tables.log == log + [row];
    Regroup(log, [row], OrchestratedFromPayment(c, input, end)[1..]);
    assert [row] + OrchestratedFromPayment(c, input, end)[1..] == OrchestratedFromPayment(c, input, end);
    hide RunAlone, OrchestratorStep, Settle, ReservedCore, PaidCore, AfterRelease, CanRelease, Reserves, EndingOf;
    if end.NotPaid? {
      ReleaseRun(o, ref, next.tables, input, failAt);
    } else {
      ShipRun(o, ref, c.nextPayment, next.tables, input, failAt);
    }
  }

  function DrawnIf(next: nat, why: Reason): nat {
    if why == CheckViolated then next + 1 else next
  }

  lemma ReserveSettles(c: Core, log: seq<LogRow>, input: SagaInput, failAt: Option<StepName>, end: Ending)
    requires WellFormed(c) && SkusIndexed(c) && end == EndingOf(c, input, failAt) && !end.NotCreated?
    ensures GotReservation(end) ==> Reserves(c, input, end)
    ensures var o, t, sku := c.nextOrder, Tables(CreatedCore(c, input), log), SkuDetail(input.sku, input.quantity);
      var next := Settle(OrchestratorStep(ToReserve(o), t, input, failAt));
      if end.NotReserved? then
        && next.phase == Orchestrating(ToCancel(o))
        && next.tables.log == log + [FailedTo(Orchestration, o, ReserveInventory, sku, end.why)]
        && next.tables.core == t.core.(nextReservation := DrawnIf(c.nextReservation, end.why))
      else
        next == Config(Orchestrating(ToCapture(o, RefOf(c, input))),
                       Tables(ReservedCore(c, input), log + [Did(Orchestration, o, ReserveInventory, Forward, sku)]))
  {
  }

  ghost function CreatedCore(c: Core, input: SagaInput): Core {
    c.(orders := c.orders[c.nextOrder := Order(input.customerName, input.amountCents, Pending)],
       nextOrder := c.nextOrder + 1)
  }

  lemma CreateSettles(t: Tables, input: SagaInput, failAt: Option<StepName>)
    ensures var end, o := EndingOf(t.core, input, failAt), t.core.nextOrder;
      var next := Settle(OrchestratorStep(Unstarted, t, input, failAt));
      if end.NotCreated? then
        && next.phase == Orchestrating(AbortedStage)
        && next.tables.log == t.log + [NotCreatedRow(Orchestration, input, end.why)]
        && next.tables.core == t.core.(nextOrder := DrawnIf(t.core.nextOrder, end.why))
      else
        next == Config(Orchestrating(ToReserve(o)),
                       Tables(CreatedCore(t.core, input), t.log + [CreatedRow(Orchestration, o, input)]))
  {
  }

  lemma CancelledLeaves(c: Core, d: Core, input: SagaInput, end: Ending)
    requires end.NotReserved?
    requires d == CreatedCore(c, input).(
      nextReservation := DrawnIf(c.nextReservation, end.why),
      orders := c.orders[c.nextOrder := Order(input.customerName, input.amountCents, Cancelled)])
    ensures Leaves(c, d, input, end)
  {
  }

  lemma ReserveRun(c: Core, log: seq<LogRow>, input: SagaInput, failAt: Option<StepName>, end: Ending)
    requires WellFormed(c) && SkusIndexed(c) && end == EndingOf(c, input, failAt) && !end.NotCreated?
    ensures GotReservation(end) ==> input.sku in c.skuIndex
    ensures var run :=
      RunAlone(Orchestrating(ToReserve(c.nextOrder)), Tables(CreatedCore(c, input), log), input, failAt);
      && run.phase == Orchestrating(StageAtEnd(c.nextOrder, end))
      && Leaves(c, run.tables.core, input, end)
      && run.tables.log == log + OrchestratedFromReserve(c, input, end)
  {
    var o, t, sku := c.nextOrder, Tables(CreatedCore(c, input), log), SkuDetail(input.sku, input.quantity);
    Unfold(ToReserve(o), t, input, failAt);
    ReserveSettles(c, log, input, failAt, end);
    var next := Settle(OrchestratorStep(ToReserve(o), t, input, failAt));
    hide RunAlone, OrchestratorStep, Settle, Reserves, EndingOf, ReservedCore, EndCore, OrchestratedFromPayment,
      Leaves, WellFormed, SkusIndexed;
    if end.NotReserved? {
      CancelRun(o, next.tables, input, failAt);
      Regroup(log, [FailedTo(Orchestration, o, ReserveInventory, sku, end.why)],
              [Did(Orchestration, o, CancelOrder, Compensate, NoDetail)]);
      CancelledLeaves(c, RunAlone(next.phase, next.tables, input, failAt).tables.core, input, end);
    } else {
      PayRun(c, next.tables.log, input, failAt, end);
      EndCoreLeaves(c, input, end);
      Regroup(log, [Did(Orchestration, o, ReserveInventory, Forward, sku)], OrchestratedFromPayment(c, input, end));
    }
  }

  /** From its input alone: how an orchestrated saga ends when run by itself, what it leaves in every table, and
      every row it logs. */
  lemma OrchestratedOutcome(t: Tables, input: SagaInput, failAt: Option<StepName>)
    requires WellFormed(t.core) && SkusIndexed(t.core)
    ensures var run, end := RunAlone(Orchestrating(Unstarted), t, input, failAt), EndingOf(t.core, input, failAt);
      && run.phase == Orchestrating(StageAtEnd(t.core.nextOrder, end))
      && Leaves(t.core, run.tables.core, input, end)
      && (GotReservation(end) ==> input.sku in t.core.skuIndex)
      && run.tables.log == t.log + OrchestratedRows(t.core, input, end)
  {
    var end := EndingOf(t.core, input, failAt);
    Unfold(Unstarted, t, input, failAt);
    CreateSettles(t, input, failAt);
    var next := Settle(OrchestratorStep(Unstarted, t, input, failAt));
    if end.NotCreated? {
      assert RunAlone(next.phase, next.tables, input, failAt) == next;
    } else {
      ReserveRun(t.core, next.tables.log, input, failAt, end);
      Regroup(t.log, [CreatedRow(Orchestration, t.core.nextOrder, input)], OrchestratedFromReserve(t.core, input, end));
    }
    hide RunAlone, OrchestratorStep, Settle, EndingOf, WellFormed, SkusIndexed, Leaves, OrchestratedFromReserve;
  }
}
