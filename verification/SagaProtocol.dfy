/** The control points of the two coordination styles, and what one database action does at each. */
module SagaProtocol {
  import opened Wrappers
  import opened SagaTables
  import opened SagaSteps

  /** How far a saga has come, as its own rows in the tables show it. These are also the control
      points of the orchestrator, which holds the references in local variables. */
  datatype Stage =
    | Unstarted
    | ToReserve(order: nat)
    | ToCapture(order: nat, reservation: ReservationRef)
    | ToShip(order: nat, reservation: ReservationRef, payment: nat)
    | ToComplete(order: nat)
    | ToRefund(order: nat, reservation: ReservationRef, payment: nat)
    | ToRelease(order: nat, reservation: ReservationRef)
    | ToCancel(order: nat)
    | CompletedStage(order: nat)
    | CancelledStage(order: nat)
    | AbortedStage
  {
    predicate Final() {
      CompletedStage? || CancelledStage? || AbortedStage?
    }

    predicate HasOrder() {
      !Unstarted? && !AbortedStage?
    }

    /** Business steps still ahead, at most. */
    function Rank(): nat {
      match this
      case Unstarted => 7
      case ToReserve(_) => 6
      case ToCapture(_, _) => 5
      case ToShip(_, _, _) => 4
      case ToComplete(_) => 1
      case ToRefund(_, _, _) => 3
      case ToRelease(_, _) => 2
      case ToCancel(_) => 1
      case _ => 0
    }
  }

  /** The events of the forward chain; the others belong to compensation. */
  predicate InForwardChain(name: EventName) {
    name.OrderCreatedEvent? || name.InventoryReservedEvent? || name.PaymentCapturedEvent? || name.ShipmentCreatedEvent?
  }

  /** Domain events with their payloads. */
  datatype Event =
    | OrderCreated(order: nat, sku: string, quantity: int, amountCents: int)
    | InventoryReserved(order: nat, reservation: ReservationRef, amountCents: int)
    | PaymentCaptured(order: nat, payment: nat, reservation: ReservationRef)
    | ShipmentCreated(order: nat, shipment: nat)
    | InventoryReservationFailed(order: nat, reason: Reason)
    | PaymentFailed(order: nat, reason: Reason, reservation: ReservationRef)
    | ShipmentFailed(order: nat, reason: Reason, payment: nat, reservation: ReservationRef)
    | PaymentRefunded(order: nat, reservation: ReservationRef)
    | InventoryReleased(order: nat)
    | OrderCancelled(order: nat)
  {
    function Name(): EventName {
      match this
      case OrderCreated(_, _, _, _) => OrderCreatedEvent
      case InventoryReserved(_, _, _) => InventoryReservedEvent
      case PaymentCaptured(_, _, _) => PaymentCapturedEvent
      case ShipmentCreated(_, _) => ShipmentCreatedEvent
      case InventoryReservationFailed(_, _) => InventoryReservationFailedEvent
      case PaymentFailed(_, _, _) => PaymentFailedEvent
      case ShipmentFailed(_, _, _, _) => ShipmentFailedEvent
      case PaymentRefunded(_, _) => PaymentRefundedEvent
      case InventoryReleased(_) => InventoryReleasedEvent
      case OrderCancelled(_) => OrderCancelledEvent
    }
  }

  /** A handler that `registerHandlers` puts on the bus, named by the event it reacts to. */
  datatype Handler = HandlerFor(event: EventName)

  datatype Subscription = Subscription(consumer: Service, direction: Direction, handler: Handler)

  /** The wiring that `registerHandlers` leaves on a fresh bus: at most one subscriber per event. */
  function Subscribers(name: EventName): seq<Subscription> {
    match name
    case OrderCreatedEvent => [Subscription(InventoryService, Forward, HandlerFor(name))]
    case InventoryReservedEvent => [Subscription(PaymentService, Forward, HandlerFor(name))]
    case PaymentCapturedEvent => [Subscription(ShipmentService, Forward, HandlerFor(name))]
    case ShipmentCreatedEvent => [Subscription(OrderService, Forward, HandlerFor(name))]
    case InventoryReservationFailedEvent => [Subscription(OrderService, Compensate, HandlerFor(name))]
    case PaymentFailedEvent => [Subscription(InventoryService, Compensate, HandlerFor(name))]
    case ShipmentFailedEvent => [Subscription(PaymentService, Compensate, HandlerFor(name))]
    case PaymentRefundedEvent => [Subscription(InventoryService, Compensate, HandlerFor(name))]
    case InventoryReleasedEvent => [Subscription(OrderService, Compensate, HandlerFor(name))]
    case OrderCancelledEvent => []
  }

  /** Every handler publishes an event of strictly smaller rank. */
  function EventRank(name: EventName): nat {
    match name
    case OrderCreatedEvent => 6
    case InventoryReservedEvent => 5
    case PaymentCapturedEvent => 4
    case ShipmentFailedEvent => 3
    case PaymentFailedEvent => 2
    case PaymentRefundedEvent => 2
    case ShipmentCreatedEvent => 1
    case InventoryReservationFailedEvent => 1
    case InventoryReleasedEvent => 1
    case OrderCancelledEvent => 0
  }

  /** Where a saga's code stands between two database actions. `LoggingFailure` is the moment after
      ROLLBACK and before the failure row is written as a statement of its own. */
  datatype Phase =
    | Orchestrating(stage: Stage)
    | LoggingFailure(row: LogRow, next: Phase)
    | Starting
    | Publishing(event: Event, publisher: Service, direction: Direction)
    | Consuming(event: Event)
    | Handling(event: Event)
    | CascadeOver(stage: Stage)
  {
    predicate Finished() {
      (Orchestrating? && stage.Final()) || CascadeOver?
    }

    /** Database actions still ahead, at most. */
    function Rank(): nat {
      match this
      case Orchestrating(s) => 2 * s.Rank()
      case LoggingFailure(_, n) => n.Rank() + 1
      case Starting => 30
      case Publishing(e, _, _) => 4 * EventRank(e.Name()) + 4
      case Consuming(e) => 4 * EventRank(e.Name()) + 3
      case Handling(e) => 4 * EventRank(e.Name()) + 2
      case CascadeOver(_) => 0
    }
  }

  datatype Config = Config(phase: Phase, tables: Tables)

  /** After a step: on failure its row is still to be written. */
  function AfterStep<T>(effect: StepEffect<T>, log: seq<LogRow>, row: LogRow, next: Phase): (r: Config)
    ensures ProgressOf(r) == Progress(StageOf(next), effect.core)
  {
    if effect.result.Ok? then Config(next, Tables(effect.core, log + [row]))
    else Config(LoggingFailure(row, next), Tables(effect.core, log))
  }

  /** One step of the orchestrator. A compensation's own failure is not looked at. */
  function OrchestratorStep(stage: Stage, t: Tables, input: SagaInput, failAt: Option<StepName>): Config {
    var m := Orchestration;
    match stage
    case Unstarted =>
      var e := CreateOrderEffect(t.core, input, failAt == Some(CreateOrder));
      AfterStep(e, t.log, CreateOrderRow(m, input, e.result),
        Orchestrating(if e.result.Ok? then ToReserve(e.result.value) else AbortedStage))
    case ToReserve(o) =>
      var e := ReserveInventoryEffect(t.core, o, input.sku, input.quantity, failAt == Some(ReserveInventory));
      AfterStep(e, t.log, ReserveInventoryRow(m, o, input.sku, input.quantity, e.result),
        Orchestrating(if e.result.Ok? then ToCapture(o, e.result.value) else ToCancel(o)))
    case ToCapture(o, r) =>
      var e := CapturePaymentEffect(t.core, o, input.amountCents, failAt == Some(CapturePayment));
      AfterStep(e, t.log, CapturePaymentRow(m, o, input.amountCents, e.result),
        Orchestrating(if e.result.Ok? then ToShip(o, r, e.result.value) else ToRelease(o, r)))
    case ToShip(o, r, p) =>
      var e := CreateShipmentEffect(t.core, o, failAt == Some(CreateShipment));
      AfterStep(e, t.log, CreateShipmentRow(m, o, e.result),
        Orchestrating(if e.result.Ok? then ToComplete(o) else ToRefund(o, r, p)))
    case ToComplete(o) =>
      var e := CompleteOrderEffect(t.core, o);
      AfterStep(e, t.log, CompleteOrderRow(m, o, e.result), Orchestrating(CompletedStage(o)))
    case ToRefund(o, r, p) =>
      var e := RefundPaymentEffect(t.core, p);
      AfterStep(e, t.log, RefundPaymentRow(m, o, p, e.result), Orchestrating(ToRelease(o, r)))
    case ToRelease(o, r) =>
      var e := ReleaseInventoryEffect(t.core, r);
      AfterStep(e, t.log, ReleaseInventoryRow(m, o, r, e.result), Orchestrating(ToCancel(o)))
    case ToCancel(o) =>
      var e := CancelOrderEffect(t.core, o);
      AfterStep(e, t.log, CancelOrderRow(m, o, e.result), Orchestrating(CancelledStage(o)))
    case _ => Config(Orchestrating(stage), t)
  }

  /** What the subscribed handler does with an event: one business step, then at most one publish. */
  function HandlerStep(event: Event, t: Tables, failAt: Option<StepName>): Config {
    var m := Choreography;
    match event
    case OrderCreated(o, sku, quantity, amount) =>
      var e := ReserveInventoryEffect(t.core, o, sku, quantity, failAt == Some(ReserveInventory));
      AfterStep(e, t.log, ReserveInventoryRow(m, o, sku, quantity, e.result),
        match e.result
        case Ok(r) => Publishing(InventoryReserved(o, r, amount), InventoryService, Forward)
        case Err(why) => Publishing(InventoryReservationFailed(o, why), InventoryService, Compensate))
    case InventoryReserved(o, r, amount) =>
      var e := CapturePaymentEffect(t.core, o, amount, failAt == Some(CapturePayment));
      AfterStep(e, t.log, CapturePaymentRow(m, o, amount, e.result),
        match e.result
        case Ok(p) => Publishing(PaymentCaptured(o, p, r), PaymentService, Forward)
        case Err(why) => Publishing(PaymentFailed(o, why, r), PaymentService, Compensate))
    case PaymentCaptured(o, p, r) =>
      var e := CreateShipmentEffect(t.core, o, failAt == Some(CreateShipment));
      AfterStep(e, t.log, CreateShipmentRow(m, o, e.result),
        match e.result
        case Ok(s) => Publishing(ShipmentCreated(o, s), ShipmentService, Forward)
        case Err(why) => Publishing(ShipmentFailed(o, why, p, r), ShipmentService, Compensate))
    case ShipmentCreated(o, _) =>
      var e := CompleteOrderEffect(t.core, o);
      AfterStep(e, t.log, CompleteOrderRow(m, o, e.result), CascadeOver(CompletedStage(o)))
    case InventoryReservationFailed(o, _) =>
      var e := CancelOrderEffect(t.core, o);
      AfterStep(e, t.log, CancelOrderRow(m, o, e.result), Publishing(OrderCancelled(o), OrderService, Compensate))
    case PaymentFailed(o, _, r) =>
      var e := ReleaseInventoryEffect(t.core, r);
      AfterStep(e, t.log, ReleaseInventoryRow(m, o, r, e.result),
        Publishing(InventoryReleased(o), InventoryService, Compensate))
    case ShipmentFailed(o, _, p, r) =>
      var e := RefundPaymentEffect(t.core, p);
      AfterStep(e, t.log, RefundPaymentRow(m, o, p, e.result),
        Publishing(PaymentRefunded(o, r), PaymentService, Compensate))
    case PaymentRefunded(o, r) =>
      var e := ReleaseInventoryEffect(t.core, r);
      AfterStep(e, t.log, ReleaseInventoryRow(m, o, r, e.result),
        Publishing(InventoryReleased(o), InventoryService, Compensate))
    case InventoryReleased(o) =>
      var e := CancelOrderEffect(t.core, o);
      AfterStep(e, t.log, CancelOrderRow(m, o, e.result), Publishing(OrderCancelled(o), OrderService, Compensate))
    case OrderCancelled(o) => Config(CascadeOver(CancelledStage(o)), t)
  }

  function PublishedRow(event: Event, publisher: Service, direction: Direction): LogRow {
    LogRow(Some(event.order), Choreography, EventLabel(event.Name()), direction, Published, PublishedBy(publisher))
  }

  function ConsumedRow(event: Event, subscription: Subscription): LogRow {
    LogRow(Some(event.order), Choreography, EventLabel(event.Name()), subscription.direction, Consumed,
           ConsumedBy(subscription.consumer))
  }

  /** The next database action of a saga, whichever way it is coordinated. A finished saga does nothing. */
  function Step(phase: Phase, t: Tables, input: SagaInput, failAt: Option<StepName>): Config {
    match phase
    case Orchestrating(s) => OrchestratorStep(s, t, input, failAt)
    case LoggingFailure(row, next) => Config(next, Tables(t.core, t.log + [row]))
    case Starting =>
      var e := CreateOrderEffect(t.core, input, failAt == Some(CreateOrder));
      AfterStep(e, t.log, CreateOrderRow(Choreography, input, e.result),
        match e.result
        case Ok(o) => Publishing(OrderCreated(o, input.sku, input.quantity, input.amountCents), OrderService, Forward)
        case Err(_) => CascadeOver(AbortedStage))
    case Publishing(event, publisher, direction) =>
      Config(if Subscribers(event.Name()) == [] then CascadeOver(EventStage(event)) else Consuming(event),
             Tables(t.core, t.log + [PublishedRow(event, publisher, direction)]))
    case Consuming(event) =>
      if Subscribers(event.Name()) == [] then Config(CascadeOver(EventStage(event)), t)
      else Config(Handling(event), Tables(t.core, t.log + [ConsumedRow(event, Subscribers(event.Name())[0])]))
    case Handling(event) => HandlerStep(event, t, failAt)
    case CascadeOver(_) => Config(phase, t)
  }

  /** The progress that an event in flight stands for. */
  function EventStage(event: Event): Stage {
    match event
    case OrderCreated(o, _, _, _) => ToReserve(o)
    case InventoryReserved(o, r, _) => ToCapture(o, r)
    case PaymentCaptured(o, p, r) => ToShip(o, r, p)
    case ShipmentCreated(o, _) => ToComplete(o)
    case InventoryReservationFailed(o, _) => ToCancel(o)
    case PaymentFailed(o, _, r) => ToRelease(o, r)
    case ShipmentFailed(o, _, p, r) => ToRefund(o, r, p)
    case PaymentRefunded(o, r) => ToRelease(o, r)
    case InventoryReleased(o) => ToCancel(o)
    case OrderCancelled(o) => CancelledStage(o)
  }

  function StageOf(phase: Phase): Stage {
    match phase
    case Orchestrating(s) => s
    case LoggingFailure(_, next) => StageOf(next)
    case Starting => Unstarted
    case Publishing(e, _, _) => EventStage(e)
    case Consuming(e) => EventStage(e)
    case Handling(e) => EventStage(e)
    case CascadeOver(s) => s
  }

  /** What an event's payload must repeat of the saga's input for the next handler to act on it. */
  predicate EventCarries(event: Event, input: SagaInput) {
    match event
    case OrderCreated(_, sku, quantity, amount) =>
      sku == input.sku && quantity == input.quantity && amount == input.amountCents
    case InventoryReserved(_, _, amount) => amount == input.amountCents
    case _ => true
  }

  predicate Carries(phase: Phase, input: SagaInput) {
    match phase
    case LoggingFailure(_, next) => !next.LoggingFailure? && Carries(next, input)
    case Publishing(e, _, _) => EventCarries(e, input)
    case Consuming(e) => EventCarries(e, input)
    case Handling(e) => EventCarries(e, input)
    case CascadeOver(s) => s.Final()
    case _ => true
  }

  /** A saga as the business tables see it. */
  datatype Progress = Progress(stage: Stage, core: Core)

  function ProgressOf(config: Config): Progress {
    Progress(StageOf(config.phase), config.tables.core)
  }

  /** The orchestrator's move at a stage, seen only in the business tables. */
  function Move(stage: Stage, c: Core, input: SagaInput, failAt: Option<StepName>): Progress {
    ProgressOf(OrchestratorStep(stage, Tables(c, []), input, failAt))
  }

  /** Actions that only write `saga_log`. */
  predicate LogOnly(phase: Phase) {
    phase.LoggingFailure? || phase.Publishing? || phase.Consuming? || phase.Finished()
      || (phase.Handling? && phase.event.OrderCancelled?)
  }

  /** Refinement: at every control point of either style, the next action is the orchestrator's move
      on the business tables or leaves them alone. */
  lemma StepRefinesMove(phase: Phase, t: Tables, input: SagaInput, failAt: Option<StepName>)
    requires Carries(phase, input)
    ensures var next := Step(phase, t, input, failAt);
      && Carries(next.phase, input)
      && (if LogOnly(phase) then ProgressOf(next) == Progress(StageOf(phase), t.core)
          else ProgressOf(next) == Move(StageOf(phase), t.core, input, failAt))
  {
    match phase
    case Orchestrating(s) => OrchestratorIgnoresLog(s, t, input, failAt);
    case Starting =>
    case Handling(e) => HandlerRefinesMove(e, t, input, failAt);
    case _ =>
  }

  lemma OrchestratorIgnoresLog(stage: Stage, t: Tables, input: SagaInput, failAt: Option<StepName>)
    ensures var next := OrchestratorStep(stage, t, input, failAt);
      && Carries(next.phase, input)
      && ProgressOf(next) == Move(stage, t.core, input, failAt)
      && (stage.Final() ==> next == Config(Orchestrating(stage), t))
  {
  }

  lemma HandlerRefinesMove(event: Event, t: Tables, input: SagaInput, failAt: Option<StepName>)
    requires EventCarries(event, input)
    ensures var next := HandlerStep(event, t, failAt);
      && Carries(next.phase, input)
      && ProgressOf(next) == Move(EventStage(event), t.core, input, failAt)
  {
    if InForwardChain(event.Name()) {
      ForwardHandlerRefinesMove(event, t, input, failAt);
    } else {
      CompensationHandlerRefinesMove(event, t, input, failAt);
    }
  }

  lemma ForwardHandlerRefinesMove(event: Event, t: Tables, input: SagaInput, failAt: Option<StepName>)
    requires EventCarries(event, input) && InForwardChain(event.Name())
    ensures var next := HandlerStep(event, t, failAt);
      && Carries(next.phase, input)
      && ProgressOf(next) == Move(EventStage(event), t.core, input, failAt)
  {
    hide ReserveInventoryEffect, CapturePaymentEffect, CreateShipmentEffect, SetOrderStatus;
    match event
    case OrderCreated(_, _, _, _) =>
    case InventoryReserved(_, _, _) =>
    case PaymentCaptured(_, _, _) =>
    case ShipmentCreated(_, _) =>
  }

  lemma CompensationHandlerRefinesMove(event: Event, t: Tables, input: SagaInput, failAt: Option<StepName>)
    requires EventCarries(event, input) && !InForwardChain(event.Name())
    ensures var next := HandlerStep(event, t, failAt);
      && Carries(next.phase, input)
      && ProgressOf(next) == Move(EventStage(event), t.core, input, failAt)
  {
    hide ReleaseInventoryEffect,
      RefundPaymentEffect, SetOrderStatus;
    match event
    case InventoryReservationFailed(_, _) =>
    case PaymentFailed(_, _, _) =>
    case ShipmentFailed(_, _, _, _) =>
    case PaymentRefunded(_, _) =>
    case InventoryReleased(_) =>
    case OrderCancelled(_) =>
  }

  /** The event cascade terminates: every action of an unfinished saga lowers its rank. */
  lemma StepLowersRank(phase: Phase, t: Tables, input: SagaInput, failAt: Option<StepName>)
    requires !phase.Finished()
    ensures Step(phase, t, input, failAt).phase.Rank() < phase.Rank()
  {
    match phase
    case Orchestrating(s) => OrchestratorLowersRank(s, t, input, failAt);
    case Handling(e) => HandlerLowersRank(e, t, failAt);
    case _ =>
  }

  lemma OrchestratorLowersRank(stage: Stage, t: Tables, input: SagaInput, failAt: Option<StepName>)
    requires !stage.Final()
    ensures OrchestratorStep(stage, t, input, failAt).phase.Rank() < 2 * stage.Rank()
  {
    match stage
    case _ =>
  }

  lemma HandlerLowersRank(event: Event, t: Tables, failAt: Option<StepName>)
    ensures HandlerStep(event, t, failAt).phase.Rank() < 4 * EventRank(event.Name()) + 2
  {
    hide ReserveInventoryEffect, CapturePaymentEffect, CreateShipmentEffect, ReleaseInventoryEffect,
      RefundPaymentEffect, SetOrderStatus;
    match event
    case _ =>
  }

  /** A saga left alone until it has finished. */
  function RunAlone(phase: Phase, t: Tables, input: SagaInput, failAt: Option<StepName>): Config
    decreases phase.Rank()
  {
    if phase.Finished() then Config(phase, t)
    else
      StepLowersRank(phase, t, input, failAt);
      var next := Step(phase, t, input, failAt);
      RunAlone(next.phase, next.tables, input, failAt)
  }

  /** A failed step's row written at once: what both outcomes of a step have in common. */
  function Settle(config: Config): Config {
    match config.phase
    case LoggingFailure(row, next) => Config(next, Tables(config.tables.core, config.tables.log + [row]))
    case _ => config
  }

  lemma RunSettled(config: Config, input: SagaInput, failAt: Option<StepName>)
    ensures RunAlone(config.phase, config.tables, input, failAt)
      == RunAlone(Settle(config).phase, Settle(config).tables, input, failAt)
  {
  }

  lemma RunUnfolds(config: Config, input: SagaInput, failAt: Option<StepName>)
    requires !config.phase.Finished()
    ensures var next := Step(config.phase, config.tables, input, failAt);
      && RunAlone(config.phase, config.tables, input, failAt) == RunAlone(next.phase, next.tables, input, failAt)
      && RunAlone(config.phase, config.tables, input, failAt)
        == RunAlone(Settle(next).phase, Settle(next).tables, input, failAt)
  {
    hide HandlerStep, OrchestratorStep;
    var next := Step(config.phase, config.tables, input, failAt);
    RunSettled(next, input, failAt);
  }

  lemma MoveKeepsOrder(stage: Stage, c: Core, input: SagaInput, failAt: Option<StepName>)
    requires stage.HasOrder()
    ensures var m := Move(stage, c, input, failAt); m.stage.HasOrder() && m.stage.order == stage.order
  {
    hide CreateOrderEffect, ReserveInventoryEffect, CapturePaymentEffect, CreateShipmentEffect, ReleaseInventoryEffect,
      RefundPaymentEffect, SetOrderStatus;
  }

  /** A saga that has an order ends with that order. */
  lemma {:induction false} OrderStays(config: Config, input: SagaInput, failAt: Option<StepName>)
    requires Carries(config.phase, input) && StageOf(config.phase).HasOrder()
    ensures var end := StageOf(RunAlone(config.phase, config.tables, input, failAt).phase);
      end.HasOrder() && end.order == StageOf(config.phase).order
    decreases config.phase.Rank()
  {
    if !config.phase.Finished() {
      StepLowersRank(config.phase, config.tables, input, failAt);
      StepRefinesMove(config.phase, config.tables, input, failAt);
      MoveKeepsOrder(StageOf(config.phase), config.tables.core, input, failAt);
      RunUnfolds(config, input, failAt);
      hide Step, Move;
      OrderStays(Step(config.phase, config.tables, input, failAt), input, failAt);
    }
  }
}
