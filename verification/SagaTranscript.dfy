/** Every row that a lone choreographed saga logs, events included. */
module SagaTranscript {
  import opened Wrappers
  import opened SagaTables
  import opened SagaSteps
  import opened SagaProtocol
  import opened SagaEquivalence
  import opened SagaOutcome

  /** A publish by one service and its consumption by another. */
  function Sent(o: nat, event: EventName, direction: Direction, publisher: Service, consumer: Service): seq<LogRow> {
    [LogRow(Some(o), Choreography, EventLabel(event), direction, Published, PublishedBy(publisher)),
     LogRow(Some(o), Choreography, EventLabel(event), direction, Consumed, ConsumedBy(consumer))]
  }

  /** A step's row and the rows of the event that its handler goes on to publish. */
  function Then(row: LogRow, sent: seq<LogRow>, rest: seq<LogRow>): seq<LogRow> {
    [row] + (sent + rest)
  }

  /** The last event of a cancelled saga, which nobody consumes. */
  function CancelledRows(o: nat): seq<LogRow> {
    [Did(Choreography, o, CancelOrder, Compensate, NoDetail)]
    + [LogRow(Some(o), Choreography, EventLabel(OrderCancelledEvent), Compensate, Published, PublishedBy(OrderService))]
  }

  function ReleasedRows(o: nat, ref: ReservationRef): seq<LogRow> {
    Then(Did(Choreography, o, ReleaseInventory, Compensate, ReservationDetail(ref)),
         Sent(o, InventoryReleasedEvent, Compensate, InventoryService, OrderService),
         CancelledRows(o))
  }

  function RefundedRows(o: nat, payment: nat, ref: ReservationRef): seq<LogRow> {
    Then(Did(Choreography, o, RefundPayment, Compensate, PaymentDetail(payment)),
         Sent(o, PaymentRefundedEvent, Compensate, PaymentService, InventoryService),
         ReleasedRows(o, ref))
  }

  /** The choreography's rows, step by step. */
  function ChoreographedRows(c: Core, input: SagaInput, end: Ending): seq<LogRow>
    requires GotReservation(end) ==> input.sku in c.skuIndex
  {
    if end.NotCreated? then [NotCreatedRow(Choreography, input, end.why)]
    else
      Then(CreatedRow(Choreography, c.nextOrder, input),
           Sent(c.nextOrder, OrderCreatedEvent, Forward, OrderService, InventoryService),
           RowsFromReserve(c, input, end))
  }

  function RowsFromReserve(c: Core, input: SagaInput, end: Ending): seq<LogRow>
    requires !end.NotCreated? && (GotReservation(end) ==> input.sku in c.skuIndex)
  {
    var m, o, sku := Choreography, c.nextOrder, SkuDetail(input.sku, input.quantity);
    if end.NotReserved? then
      Then(FailedTo(m, o, ReserveInventory, sku, end.why),
           Sent(o, InventoryReservationFailedEvent, Compensate, InventoryService, OrderService),
           CancelledRows(o))
    else
      Then(Did(m, o, ReserveInventory, Forward, sku),
           Sent(o, InventoryReservedEvent, Forward, InventoryService, PaymentService),
           RowsFromPayment(c, input, end))
  }

  function RowsFromPayment(c: Core, input: SagaInput, end: Ending): seq<LogRow>
    requires input.sku in c.skuIndex
  {
    var m, o, cents := Choreography, c.nextOrder, AmountDetail(input.amountCents);
    if end.NotPaid? then
      Then(FailedTo(m, o, CapturePayment, cents, Simulated),
           Sent(o, PaymentFailedEvent, Compensate, PaymentService, InventoryService),
           ReleasedRows(o, RefOf(c, input)))
    else
      Then(Did(m, o, CapturePayment, Forward, cents),
           Sent(o, PaymentCapturedEvent, Forward, PaymentService, ShipmentService),
           RowsFromShipment(c, input, end))
  }

  function RowsFromShipment(c: Core, input: SagaInput, end: Ending): seq<LogRow>
    requires input.sku in c.skuIndex
  {
    var m, o := Choreography, c.nextOrder;
    if end.NotShipped? then
      Then(FailedTo(m, o, CreateShipment, NoDetail, Simulated),
           Sent(o, ShipmentFailedEvent, Compensate, ShipmentService, PaymentService),
           RefundedRows(o, c.nextPayment, RefOf(c, input)))
    else
      Then(Did(m, o, CreateShipment, Forward, NoDetail),
           Sent(o, ShipmentCreatedEvent, Forward, ShipmentService, OrderService),
           [Did(m, o, CompleteOrder, Forward, NoDetail)])
  }

  /** The log of a step whose event is published, consumed and handled. */
  lemma Chain(log: seq<LogRow>, row: LogRow, sent: seq<LogRow>, rest: seq<LogRow>)
    ensures ((log + [row]) + sent) + rest == log + Then(row, sent, rest)
  {
  }

  /** The tables with the event's two rows: its subscriber, and that one's direction, are those of the wiring. */
  function SentTables(e: Event, publisher: Service, direction: Direction, consumer: Service, t: Tables): Tables {
    Tables(t.core, t.log + Sent(e.order, e.Name(), direction, publisher, consumer))
  }

  /** What a service publishes, and to whom it goes. */
  predicate Wired(e: Event, direction: Direction, consumer: Service) {
    match e
    case OrderCreated(_, _, _, _) => direction == Forward && consumer == InventoryService
    case InventoryReserved(_, _, _) => direction == Forward && consumer == PaymentService
    case PaymentCaptured(_, _, _) => direction == Forward && consumer == ShipmentService
    case ShipmentCreated(_, _) => direction == Forward && consumer == OrderService
    case InventoryReservationFailed(_, _) => direction == Compensate && consumer == OrderService
    case PaymentFailed(_, _, _) => direction == Compensate && consumer == InventoryService
    case ShipmentFailed(_, _, _, _) => direction == Compensate && consumer == PaymentService
    case PaymentRefunded(_, _) => direction == Compensate && consumer == InventoryService
    case InventoryReleased(_) => direction == Compensate && consumer == OrderService
    case OrderCancelled(_) => false
  }

  /** A published event that has a subscriber: its two rows, and then the handler's step, settled. */
  lemma AfterPublish(e: Event, publisher: Service, direction: Direction, consumer: Service, t: Tables, input: SagaInput,
                     failAt: Option<StepName>)
    requires Wired(e, direction, consumer)
    ensures var next := Settle(HandlerStep(e, SentTables(e, publisher, direction, consumer, t), failAt));
      RunAlone(Publishing(e, publisher, direction), t, input, failAt)
        == RunAlone(next.phase, next.tables, input, failAt)
  {
    var published := Tables(t.core, t.log + [PublishedRow(e, publisher, direction)]);
    var sent := SentTables(e, publisher, direction, consumer, t);
    assert Subscribers(e.Name()) == [Subscription(consumer, direction, HandlerFor(e.Name()))];
    RunUnfolds(Config(Publishing(e, publisher, direction), t), input, failAt);
    RunUnfolds(Config(Consuming(e), published), input, failAt);
    assert published.log + [ConsumedRow(e, Subscribers(e.Name())[0])] == sent.log;
    RunUnfolds(Config(Handling(e), sent), input, failAt);
    hide RunAlone, HandlerStep;
  }

  /** After the publish, the handler's settled step, and then the rest of the cascade. */
  ghost predicate Goes(e: Event, publisher: Service, direction: Direction, consumer: Service, t: Tables,
                       input: SagaInput, failAt: Option<StepName>, rest: seq<LogRow>)
  {
    RunAlone(Publishing(e, publisher, direction), t, input, failAt).tables.log
      == (t.log + Sent(e.order, e.Name(), direction, publisher, consumer)) + rest
  }

  /** A handler that logs `row` and publishes `f`, whose cascade logs `rest`. */
  lemma GoesOn(e: Event, publisher: Service, direction: Direction, consumer: Service, t: Tables, input: SagaInput,
               failAt: Option<StepName>, row: LogRow, f: Event, publisher': Service, direction': Direction,
               consumer': Service, rest: seq<LogRow>)
    requires Wired(e, direction, consumer)
    requires var sent := SentTables(e, publisher, direction, consumer, t);
      var next := Settle(HandlerStep(e, sent, failAt));
      && next.phase == Publishing(f, publisher', direction') && next.tables.log == sent.log + [row]
      && Goes(f, publisher', direction', consumer', next.tables, input, failAt, rest)
    ensures Goes(e, publisher, direction, consumer, t, input, failAt,
                 Then(row, Sent(f.order, f.Name(), direction', publisher', consumer'), rest))
  {
    var sent := SentTables(e, publisher, direction, consumer, t);
    AfterPublish(e, publisher, direction, consumer, t, input, failAt);
    Chain(sent.log, row, Sent(f.order, f.Name(), direction', publisher', consumer'), rest);
    hide RunAlone, HandlerStep, Settle, Sent, Then;
  }

  lemma CancelHandled(e: Event, publisher: Service, t: Tables, input: SagaInput, failAt: Option<StepName>)
    requires e.InventoryReservationFailed? || e.InventoryReleased?
    ensures Goes(e, publisher, Compensate, OrderService, t, input, failAt, CancelledRows(e.order))
  {
    AfterPublish(e, publisher, Compensate, OrderService, t, input, failAt);
    var sent := SentTables(e, publisher, Compensate, OrderService, t);
    var next := Settle(HandlerStep(e, sent, failAt));
    var row := Did(Choreography, e.order, CancelOrder, Compensate, NoDetail);
    assert next.phase == Publishing(OrderCancelled(e.order), OrderService, Compensate);
    assert next.tables.log == sent.log + [row];
    CancelledPublished(e.order, next.tables, input, failAt);
    Regroup(sent.log, [row], CancelledRows(e.order)[1..]);
    assert [row] + CancelledRows(e.order)[1..] == CancelledRows(e.order);
    hide RunAlone, HandlerStep, Settle, Sent;
  }

  lemma CancelledPublished(o: nat, t: Tables, input: SagaInput, failAt: Option<StepName>)
    ensures RunAlone(Publishing(OrderCancelled(o), OrderService, Compensate), t, input, failAt).tables.log
      == t.log + CancelledRows(o)[1..]
  {
    RunUnfolds(Config(Publishing(OrderCancelled(o), OrderService, Compensate), t), input, failAt);
  }

  lemma ReleaseHandled(e: Event, publisher: Service, t: Tables, input: SagaInput, failAt: Option<StepName>)
    requires e.PaymentFailed? || e.PaymentRefunded?
    requires CanRelease(t.core, e.order, e.reservation)
    ensures Goes(e, publisher, Compensate, InventoryService, t, input, failAt, ReleasedRows(e.order, e.reservation))
  {
    var sent := SentTables(e, publisher, Compensate, InventoryService, t);
    var next := Settle(HandlerStep(e, sent, failAt));
    var f := InventoryReleased(e.order);
    var row := Did(Choreography, e.order, ReleaseInventory, Compensate, ReservationDetail(e.reservation));
    assert next.phase == Publishing(f, InventoryService, Compensate) && next.tables.log == sent.log + [row];
    CancelHandled(f, InventoryService, next.tables, input, failAt);
    GoesOn(e, publisher, Compensate, InventoryService, t, input, failAt, row, f, InventoryService, Compensate,
           OrderService, CancelledRows(e.order));
    hide HandlerStep, Settle, CanRelease, Goes, Sent, Then, CancelledRows;
  }

  lemma RefundHandled(e: Event, t: Tables, input: SagaInput, failAt: Option<StepName>)
    requires e.ShipmentFailed? && CanRelease(t.core, e.order, e.reservation)
    ensures Goes(e, ShipmentService, Compensate, PaymentService, t, input, failAt,
                 RefundedRows(e.order, e.payment, e.reservation))
  {
    var sent := SentTables(e, ShipmentService, Compensate, PaymentService, t);
    var next := Settle(HandlerStep(e, sent, failAt));
    var row, f := Did(Choreography, e.order, RefundPayment, Compensate, PaymentDetail(e.payment)),
      PaymentRefunded(e.order, e.reservation);
    assert next.phase == Publishing(f, PaymentService, Compensate) && next.tables.log == sent.log + [row];
    assert CanRelease(next.tables.core, e.order, e.reservation);
    ReleaseHandled(f, PaymentService, next.tables, input, failAt);
    GoesOn(e, ShipmentService, Compensate, PaymentService, t, input, failAt, row, f, PaymentService, Compensate,
           InventoryService, ReleasedRows(e.order, e.reservation));
    hide HandlerStep, Settle, CanRelease, Goes, Sent, Then, ReleasedRows;
  }

  lemma CompleteHandled(e: Event, t: Tables, input: SagaInput, failAt: Option<StepName>)
    requires e.ShipmentCreated?
    ensures Goes(e, ShipmentService, Forward, OrderService, t, input, failAt,
                 [Did(Choreography, e.order, CompleteOrder, Forward, NoDetail)])
  {
    AfterPublish(e, ShipmentService, Forward, OrderService, t, input, failAt);
    var sent := SentTables(e, ShipmentService, Forward, OrderService, t);
    var next := Settle(HandlerStep(e, sent, failAt));
    assert next.phase == CascadeOver(CompletedStage(e.order));
    assert next.tables.log == sent.log + [Did(Choreography, e.order, CompleteOrder, Forward, NoDetail)];
    hide HandlerStep, Settle, Sent;
  }

  lemma ShipSettles(e: Event, t: Tables, failAt: Option<StepName>)
    requires e.PaymentCaptured?
    ensures Settle(HandlerStep(e, t, failAt))
      == if failAt == Some(CreateShipment) then
           Config(Publishing(ShipmentFailed(e.order, Simulated, e.payment, e.reservation), ShipmentService, Compensate),
                  Tables(t.core, t.log + [FailedTo(Choreography, e.order, CreateShipment, NoDetail, Simulated)]))
         else
           Config(Publishing(ShipmentCreated(e.order, t.core.nextShipment), ShipmentService, Forward),
                  Tables(t.core.(shipments := t.core.shipments[t.core.nextShipment := Shipment(e.order)],
                                 nextShipment := t.core.nextShipment + 1),
                         t.log + [Did(Choreography, e.order, CreateShipment, Forward, NoDetail)]))
  {
  }

  lemma ShipHandled(e: Event, t: Tables, c: Core, input: SagaInput, failAt: Option<StepName>, end: Ending)
    requires input.sku in c.skuIndex && (end.NotShipped? <==> failAt == Some(CreateShipment)) && !end.NotPaid?
    requires e == PaymentCaptured(c.nextOrder, c.nextPayment, RefOf(c, input))
    requires CanRelease(t.core, e.order, e.reservation)
    ensures Goes(e, PaymentService, Forward, ShipmentService, t, input, failAt, RowsFromShipment(c, input, end))
  {
    var sent := SentTables(e, PaymentService, Forward, ShipmentService, t);
    ShipSettles(e, sent, failAt);
    var next := Settle(HandlerStep(e, sent, failAt));
    hide HandlerStep, Settle, CanRelease, Goes, Sent, Then, RefundedRows;
    if end.NotShipped? {
      RefundHandled(next.phase.event, next.tables, input, failAt);
      GoesOn(e, PaymentService, Forward, ShipmentService, t, input, failAt,
             FailedTo(Choreography, e.order, CreateShipment, NoDetail, Simulated), next.phase.event, ShipmentService,
             Compensate, PaymentService, RefundedRows(e.order, e.payment, e.reservation));
    } else {
      CompleteHandled(next.phase.event, next.tables, input, failAt);
      GoesOn(e, PaymentService, Forward, ShipmentService, t, input, failAt,
             Did(Choreography, e.order, CreateShipment, Forward, NoDetail), next.phase.event, ShipmentService, Forward,
             OrderService, [Did(Choreography, e.order, CompleteOrder, Forward, NoDetail)]);
    }
  }

  lemma PayHandledSettles(e: Event, c: Core, log: seq<LogRow>, input: SagaInput, failAt: Option<StepName>, end: Ending)
    requires Reserves(c, input, end) && end == EndingOf(c, input, failAt)
    requires e == InventoryReserved(c.nextOrder, RefOf(c, input), input.amountCents)
    ensures var o, ref, cents := c.nextOrder, RefOf(c, input), AmountDetail(input.amountCents);
      Settle(HandlerStep(e, Tables(ReservedCore(c, input), log), failAt))
        == if end.NotPaid? then
             Config(Publishing(PaymentFailed(o, Simulated, ref), PaymentService, Compensate),
                    Tables(ReservedCore(c, input), log + [FailedTo(Choreography, o, CapturePayment, cents, Simulated)]))
           else
             Config(Publishing(PaymentCaptured(o, c.nextPayment, ref), PaymentService, Forward),
                    Tables(PaidCore(c, input, Captured), log + [Did(Choreography, o, CapturePayment, Forward, cents)]))
  {
  }

  lemma PayHandled(e: Event, c: Core, log: seq<LogRow>, input: SagaInput, failAt: Option<StepName>, end: Ending)
    requires Reserves(c, input, end) && end == EndingOf(c, input, failAt)
    requires e == InventoryReserved(c.nextOrder, RefOf(c, input), input.amountCents)
    ensures Goes(e, InventoryService, Forward, PaymentService, Tables(ReservedCore(c, input), log), input, failAt,
                 RowsFromPayment(c, input, end))
  {
    var t, cents := Tables(ReservedCore(c, input), log), AmountDetail(input.amountCents);
    var sent := SentTables(e, InventoryService, Forward, PaymentService, t);
    PayHandledSettles(e, c, sent.log, input, failAt, end);
    ReservedCanRelease(c, input, end);
    assert end.NotShipped? <==> !end.NotPaid? && failAt == Some(CreateShipment);
    var next := Settle(HandlerStep(e, sent, failAt));
    hide HandlerStep, Settle, CanRelease, Goes, Sent, Then, ReleasedRows, RowsFromShipment, ReservedCore, PaidCore,
      EndingOf;
    if end.NotPaid? {
      ReleaseHandled(next.phase.event, PaymentService, next.tables, input, failAt);
      GoesOn(e, InventoryService, Forward, PaymentService, t, input, failAt,
             FailedTo(Choreography, e.order, CapturePayment, cents, Simulated), next.phase.event, PaymentService,
             Compensate, InventoryService, ReleasedRows(e.order, RefOf(c, input)));
    } else {
      ShipHandled(next.phase.event, next.tables, c, input, failAt, end);
      GoesOn(e, InventoryService, Forward, PaymentService, t, input, failAt,
             Did(Choreography, e.order, CapturePayment, Forward, cents), next.phase.event, PaymentService, Forward,
             ShipmentService, RowsFromShipment(c, input, end));
    }
  }

  lemma ReserveHandledSettles(e: Event, c: Core, log: seq<LogRow>, input: SagaInput, failAt: Option<StepName>,
                              end: Ending)
    requires WellFormed(c) && SkusIndexed(c) && end == EndingOf(c, input, failAt) && !end.NotCreated?
    requires e == OrderCreated(c.nextOrder, input.sku, input.quantity, input.amountCents)
    ensures GotReservation(end) ==> Reserves(c, input, end)
    ensures var o, t, sku := c.nextOrder, Tables(CreatedCore(c, input), log), SkuDetail(input.sku, input.quantity);
      var next := Settle(HandlerStep(e, t, failAt));
      if end.NotReserved? then
        && next.phase == Publishing(InventoryReservationFailed(o, end.why), InventoryService, Compensate)
        && next.tables.log == log + [FailedTo(Choreography, o, ReserveInventory, sku, end.why)]
      else
        next == Config(Publishing(InventoryReserved(o, RefOf(c, input), input.amountCents), InventoryService, Forward),
                       Tables(ReservedCore(c, input), log + [Did(Choreography, o, ReserveInventory, Forward, sku)]))
  {
  }

  lemma ReserveHandled(e: Event, c: Core, log: seq<LogRow>, input: SagaInput, failAt: Option<StepName>, end: Ending)
    requires WellFormed(c) && SkusIndexed(c) && end == EndingOf(c, input, failAt) && !end.NotCreated?
    requires e == OrderCreated(c.nextOrder, input.sku, input.quantity, input.amountCents)
    ensures GotReservation(end) ==> input.sku in c.skuIndex
    ensures Goes(e, OrderService, Forward, InventoryService, Tables(CreatedCore(c, input), log), input, failAt,
                 RowsFromReserve(c, input, end))
  {
    var t, sku := Tables(CreatedCore(c, input), log), SkuDetail(input.sku, input.quantity);
    var sent := SentTables(e, OrderService, Forward, InventoryService, t);
    ReserveHandledSettles(e, c, sent.log, input, failAt, end);
    var next := Settle(HandlerStep(e, sent, failAt));
    assert GotReservation(end) ==> input.sku in c.skuIndex;
    hide HandlerStep, Settle, Goes, Sent, Then, CancelledRows, RowsFromPayment, ReservedCore, CreatedCore, EndingOf,
      WellFormed, SkusIndexed, Reserves;
    if end.NotReserved? {
      CancelHandled(next.phase.event, InventoryService, next.tables, input, failAt);
      GoesOn(e, OrderService, Forward, InventoryService, t, input, failAt,
             FailedTo(Choreography, e.order, ReserveInventory, sku, end.why), next.phase.event, InventoryService,
             Compensate, OrderService, CancelledRows(e.order));
    } else {
      PayHandled(next.phase.event, c, next.tables.log, input, failAt, end);
      GoesOn(e, OrderService, Forward, InventoryService, t, input, failAt,
             Did(Choreography, e.order, ReserveInventory, Forward, sku), next.phase.event, InventoryService, Forward,
             PaymentService, RowsFromPayment(c, input, end));
    }
  }

  lemma StartSettles(t: Tables, input: SagaInput, failAt: Option<StepName>)
    ensures var end, o := EndingOf(t.core, input, failAt), t.core.nextOrder;
      var next := Settle(Step(Starting, t, input, failAt));
      if end.NotCreated? then
        && next.phase == CascadeOver(AbortedStage)
        && next.tables.log == t.log + [NotCreatedRow(Choreography, input, end.why)]
      else
        next == Config(Publishing(OrderCreated(o, input.sku, input.quantity, input.amountCents), OrderService, Forward),
                       Tables(CreatedCore(t.core, input), t.log + [CreatedRow(Choreography, o, input)]))
  {
  }

  /** From its input alone: how a choreographed saga ends when run by itself, what it leaves in every table, and every
      row it logs, events included. */
  lemma ChoreographedOutcome(t: Tables, input: SagaInput, failAt: Option<StepName>)
    requires WellFormed(t.core) && SkusIndexed(t.core)
    ensures var run, end := RunAlone(Starting, t, input, failAt), EndingOf(t.core, input, failAt);
      && StageOf(run.phase) == StageAtEnd(t.core.nextOrder, end)
      && Leaves(t.core, run.tables.core, input, end)
      && (GotReservation(end) ==> input.sku in t.core.skuIndex)
      && run.tables.log == t.log + ChoreographedRows(t.core, input, end)
  {
    var end := EndingOf(t.core, input, failAt);
    ChoreographyEqualsOrchestration(t, input, failAt);
    OrchestratedOutcome(t, input, failAt);
    RunUnfolds(Config(Starting, t), input, failAt);
    StartSettles(t, input, failAt);
    var next := Settle(Step(Starting, t, input, failAt));
    hide Step, Settle, EndingOf, WellFormed, SkusIndexed, Leaves, Sent, Then, RowsFromReserve, RunAlone, CreatedCore;
    if end.NotCreated? {
      AlreadyOver(next, input, failAt);
    } else {
      ReserveHandled(next.phase.event, t.core, next.tables.log, input, failAt, end);
      Chain(t.log, CreatedRow(Choreography, t.core.nextOrder, input),
            Sent(t.core.nextOrder, OrderCreatedEvent, Forward, OrderService, InventoryService),
            RowsFromReserve(t.core, input, end));
    }
  }

  lemma AlreadyOver(at: Config, input: SagaInput, failAt: Option<StepName>)
    requires at.phase.Finished()
    ensures RunAlone(at.phase, at.tables, input, failAt) == at
  {
  }
}
