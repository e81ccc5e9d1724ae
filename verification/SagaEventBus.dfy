/** The choreographed saga: an in-process event bus, and handlers that each know only their own event. */
module SagaEventBus {
  import opened Wrappers
  import opened SagaTables
  import opened SagaSteps
  import opened SagaProtocol
  import opened SagaDatabase

  class EventBus {
    const db: Database
    const failAt: Option<StepName>
    var subscriptions: map<EventName, seq<Subscription>>

    constructor (db: Database, failAt: Option<StepName>)
      ensures this.db == db && this.failAt == failAt && subscriptions == map[]
    {
      this.db, this.failAt, this.subscriptions := db, failAt, map[];
    }

    function SubscribersOf(name: EventName): seq<Subscription>
      reads this
    {
      if name in subscriptions then subscriptions[name] else []
    }

    method On(name: EventName, consumer: Service, direction: Direction, handler: Handler)
      modifies this`subscriptions
      ensures subscriptions
        == old(subscriptions)[name := old(SubscribersOf(name)) + [Subscription(consumer, direction, handler)]]
    {
      var list := SubscribersOf(name);
      subscriptions := subscriptions[name := list + [Subscription(consumer, direction, handler)]];
    }

    /** The bus carries exactly the subscriptions that the handlers register. */
    ghost predicate Wired()
      reads this
    {
      forall name :: SubscribersOf(name) == Subscribers(name)
    }

    method RegisterHandlers()
      requires subscriptions == map[]
      modifies this`subscriptions
      ensures Wired()
    {
      RegisterForwardHandlers();
      RegisterCompensationHandlers();
    }

    method RegisterForwardHandlers()
      requires subscriptions == map[]
      modifies this`subscriptions
      ensures forall name :: SubscribersOf(name) == if InForwardChain(name) then Subscribers(name) else []
    {
      On(OrderCreatedEvent, InventoryService, Forward, HandlerFor(OrderCreatedEvent));
      On(InventoryReservedEvent, PaymentService, Forward, HandlerFor(InventoryReservedEvent));
      On(PaymentCapturedEvent, ShipmentService, Forward, HandlerFor(PaymentCapturedEvent));
      On(ShipmentCreatedEvent, OrderService, Forward, HandlerFor(ShipmentCreatedEvent));
    }

    method RegisterCompensationHandlers()
      requires forall name :: !InForwardChain(name) ==> SubscribersOf(name) == []
      modifies this`subscriptions
      ensures forall name ::
        SubscribersOf(name) == if InForwardChain(name) then old(SubscribersOf(name)) else Subscribers(name)
    {
      On(InventoryReservationFailedEvent, OrderService, Compensate, HandlerFor(InventoryReservationFailedEvent));
      On(PaymentFailedEvent, InventoryService, Compensate, HandlerFor(PaymentFailedEvent));
      On(ShipmentFailedEvent, PaymentService, Compensate, HandlerFor(ShipmentFailedEvent));
      On(PaymentRefundedEvent, InventoryService, Compensate, HandlerFor(PaymentRefundedEvent));
      On(InventoryReleasedEvent, OrderService, Compensate, HandlerFor(InventoryReleasedEvent));
    }

    /** Logs the publish, then runs every subscriber in turn. It returns when the whole cascade is over;
        that it returns at all is the rank on event names. */
    method Publish(event: Event, publisher: Service, direction: Direction, ghost input: SagaInput)
      requires Wired() && event.order in db.orders
      modifies db
      ensures var end := RunAlone(Publishing(event, publisher, direction), old(db.View()), input, failAt);
        end.phase.CascadeOver? && db.View() == end.tables
      ensures event.order in db.orders
      decreases EventRank(event.Name()), 2
    {
      hide RunAlone, HandlerStep, OrchestratorStep, CreateOrderEffect;
      ghost var start := Config(Publishing(event, publisher, direction), db.View());
      RunUnfolds(start, input, failAt);
      ghost var at := Step(start.phase, start.tables, input, failAt);
      db.InsertSagaLog(PublishedRow(event, publisher, direction));
      var subscribers := SubscribersOf(event.Name());
      assert subscribers == Subscribers(event.Name());
      if subscribers == [] {
        RunOver(at, input, failAt);
      }
      var i := 0;
      while i < |subscribers|
        invariant 0 <= i <= |subscribers| && event.order in db.orders
        invariant i == 0 ==> db.View() == at.tables
        invariant i > 0 || subscribers == [] ==>
          var end := RunAlone(at.phase, at.tables, input, failAt); end.phase.CascadeOver? && db.View() == end.tables
      {
        RunUnfolds(at, input, failAt);
        db.InsertSagaLog(ConsumedRow(event, subscribers[i]));
        assert Step(at.phase, at.tables, input, failAt) == Config(Handling(event), db.View());
        Handle(subscribers[i].handler, event, input);
        i := i + 1;
      }
    }

    lemma RunOver(at: Config, input: SagaInput, failAt: Option<StepName>)
      requires at.phase.Finished()
      ensures RunAlone(at.phase, at.tables, input, failAt) == at
    {
    }

    /** Runs the handler registered for an event. */
    method Handle(handler: Handler, event: Event, ghost input: SagaInput)
      requires Wired() && handler == HandlerFor(event.Name()) && !event.OrderCancelled? && event.order in db.orders
      modifies db
      ensures var end := RunAlone(Handling(event), old(db.View()), input, failAt);
        end.phase.CascadeOver? && db.View() == end.tables
      ensures event.order in db.orders
      decreases EventRank(event.Name()), 1
    {
      if InForwardChain(event.Name()) {
        HandleForward(event, input);
      } else {
        HandleCompensation(event, input);
      }
    }

    method HandleForward(event: Event, ghost input: SagaInput)
      requires Wired() && InForwardChain(event.Name()) && event.order in db.orders
      modifies db
      ensures var end := RunAlone(Handling(event), old(db.View()), input, failAt);
        end.phase.CascadeOver? && db.View() == end.tables
      ensures event.order in db.orders
      decreases EventRank(event.Name()), 0
    {
      hide RunAlone, OrchestratorStep, ReserveInventoryEffect, CapturePaymentEffect, CreateShipmentEffect,
        ReleaseInventoryEffect, RefundPaymentEffect;
      ghost var start := Config(Handling(event), db.View());
      RunUnfolds(start, input, failAt);
      match event
      case OrderCreated(o, sku, quantity, amount) =>
        var r := db.ReserveInventoryStep(Choreography, o, sku, quantity, failAt == Some(ReserveInventory));
        if r.Err? {
          Publish(InventoryReservationFailed(o, r.error), InventoryService, Compensate, input);
        } else {
          Publish(InventoryReserved(o, r.value, amount), InventoryService, Forward, input);
        }
      case InventoryReserved(o, reservation, amount) =>
        var r := db.CapturePaymentStep(Choreography, o, amount, failAt == Some(CapturePayment));
        if r.Err? {
          Publish(PaymentFailed(o, r.error, reservation), PaymentService, Compensate, input);
        } else {
          Publish(PaymentCaptured(o, r.value, reservation), PaymentService, Forward, input);
        }
      case PaymentCaptured(o, payment, reservation) =>
        var r := db.CreateShipmentStep(Choreography, o, failAt == Some(CreateShipment));
        if r.Err? {
          Publish(ShipmentFailed(o, r.error, payment, reservation), ShipmentService, Compensate, input);
        } else {
          Publish(ShipmentCreated(o, r.value), ShipmentService, Forward, input);
        }
      case ShipmentCreated(o, _) =>
        var r := db.CompleteOrderStep(Choreography, o);
        RunOver(Settle(HandlerStep(event, start.tables, failAt)), input, failAt);
    }

    method HandleCompensation(event: Event, ghost input: SagaInput)
      requires Wired() && !InForwardChain(event.Name()) && !event.OrderCancelled? && event.order in db.orders
      modifies db
      ensures var end := RunAlone(Handling(event), old(db.View()), input, failAt);
        end.phase.CascadeOver? && db.View() == end.tables
      ensures event.order in db.orders
      decreases EventRank(event.Name()), 0
    {
      hide RunAlone, OrchestratorStep, ReserveInventoryEffect, CapturePaymentEffect, CreateShipmentEffect,
        ReleaseInventoryEffect, RefundPaymentEffect;
      RunUnfolds(Config(Handling(event), db.View()), input, failAt);
      match event
      case InventoryReservationFailed(o, _) =>
        var r := db.CancelOrderStep(Choreography, o);
        Publish(OrderCancelled(o), OrderService, Compensate, input);
      case PaymentFailed(o, _, reservation) =>
        var r := db.ReleaseInventoryStep(Choreography, o, reservation);
        Publish(InventoryReleased(o), InventoryService, Compensate, input);
      case ShipmentFailed(o, _, payment, reservation) =>
        var r := db.RefundPaymentStep(Choreography, o, payment);
        Publish(PaymentRefunded(o, reservation), PaymentService, Compensate, input);
      case PaymentRefunded(o, reservation) =>
        var r := db.ReleaseInventoryStep(Choreography, o, reservation);
        Publish(InventoryReleased(o), InventoryService, Compensate, input);
      case InventoryReleased(o) =>
        var r := db.CancelOrderStep(Choreography, o);
        Publish(OrderCancelled(o), OrderService, Compensate, input);
    }
  }

  /** A fresh bus per run; `None` when the order was never created. */
  method RunChoreographedOrderSaga(db: Database, input: SagaInput, failAt: Option<StepName>)
    returns (orderId: Option<nat>)
    modifies db
    ensures var end := RunAlone(Starting, old(db.View()), input, failAt);
      && end.phase.CascadeOver? && db.View() == end.tables
      && (if orderId == None then end.phase.stage == AbortedStage
          else end.phase.stage.HasOrder() && end.phase.stage.order == orderId.value)
  {
    var bus := new EventBus(db, failAt);
    bus.RegisterHandlers();
    ghost var start := Config(Starting, db.View());
    RunUnfolds(start, input, failAt);
    var created := db.CreateOrderStep(Choreography, input, failAt == Some(CreateOrder));
    if created.Err? {
      return None;
    }
    assert Settle(Step(Starting, start.tables, input, failAt))
      == Config(Publishing(OrderCreated(created.value, input.sku, input.quantity, input.amountCents), OrderService,
        Forward), db.View());
    OrderStays(Settle(Step(Starting, start.tables, input, failAt)), input, failAt);
    bus.Publish(OrderCreated(created.value, input.sku, input.quantity, input.amountCents), OrderService, Forward,
      input);
    return Some(created.value);
  }
}
