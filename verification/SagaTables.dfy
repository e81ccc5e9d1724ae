/** The order-saga database: one value per table, and the identity sequences behind the primary keys. */
module SagaTables {
  import opened Integers
  import opened Wrappers

  datatype OrderStatus = Pending | Completed | Cancelled
  datatype ReservationStatus = Reserved | Released
  datatype PaymentStatus = Captured | Refunded

  datatype Order = Order(customerName: string, amountCents: int, status: OrderStatus)
  datatype Item = Item(sku: string, available: int)
  datatype Reservation = Reservation(orderId: nat, itemId: nat, quantity: int, status: ReservationStatus)
  datatype Payment = Payment(orderId: nat, amountCents: int, status: PaymentStatus)
  datatype Shipment = Shipment(orderId: nat)

  /** Every table except `saga_log`. `skuIndex` is the unique index on `inventory_items.sku`;
      `nextX` is the next value of the identity sequence of table X. */
  datatype Core = Core(
    orders: map<nat, Order>,
    items: map<nat, Item>,
    skuIndex: map<string, nat>,
    reservations: map<nat, Reservation>,
    payments: map<nat, Payment>,
    shipments: map<nat, Shipment>,
    nextOrder: nat,
    nextReservation: nat,
    nextPayment: nat,
    nextShipment: nat)

  datatype Mechanism = Orchestration | Choreography
  datatype Direction = Forward | Compensate
  datatype RowOutcome = Success | Failure | Published | Consumed

  datatype StepName =
    | CreateOrder | ReserveInventory | CapturePayment | CreateShipment | CompleteOrder
    | RefundPayment | ReleaseInventory | CancelOrder

  datatype EventName =
    | OrderCreatedEvent | InventoryReservedEvent | PaymentCapturedEvent | ShipmentCreatedEvent
    | InventoryReservationFailedEvent | PaymentFailedEvent | ShipmentFailedEvent
    | PaymentRefundedEvent | InventoryReleasedEvent | OrderCancelledEvent

  datatype Service = OrderService | InventoryService | PaymentService | ShipmentService

  /** Why a step's transaction was rolled back. */
  datatype Reason =
    | Simulated
    | UnknownSku(sku: string)
    | InsufficientInventory(have: int, need: int)
    | OutOfRange
    | CheckViolated

  datatype ReservationRef = ReservationRef(reservationId: nat, itemId: nat, quantity: int)

  datatype RowLabel = StepLabel(step: StepName) | EventLabel(event: EventName)

  datatype Detail =
    | NoDetail
    | OrderDetail(customerName: string, amountCents: int)
    | CustomerDetail(customer: string)
    | SkuDetail(sku: string, quantity: int)
    | AmountDetail(cents: int)
    | PaymentDetail(paymentId: nat)
    | ReservationDetail(reservation: ReservationRef)
    | FailureDetail(attempted: Detail, reason: Reason)
    | PublishedBy(publisher: Service)
    | ConsumedBy(consumer: Service)

  datatype LogRow = LogRow(
    orderId: Option<nat>, mechanism: Mechanism, name: RowLabel,
    direction: Direction, outcome: RowOutcome, detail: Detail)

  datatype Tables = Tables(core: Core, log: seq<LogRow>)

  datatype SagaInput = SagaInput(customerName: string, amountCents: int, sku: string, quantity: int)

  /** The UNIQUE constraint on `inventory_items.sku`, with its index. */
  ghost predicate SkusIndexed(c: Core) {
    && (forall i :: i in c.items ==> c.items[i].sku in c.skuIndex && c.skuIndex[c.items[i].sku] == i)
    && (forall s :: s in c.skuIndex ==> c.skuIndex[s] in c.items && c.items[c.skuIndex[s]].sku == s)
  }

  /** Primary keys drawn from the sequences, foreign keys, CHECK constraints, and the width of the stock column. */
  ghost predicate WellFormed(c: Core) {
    && (forall o :: o in c.orders ==> o < c.nextOrder)
    && (forall r :: r in c.reservations ==> r < c.nextReservation)
    && (forall p :: p in c.payments ==> p < c.nextPayment)
    && (forall s :: s in c.shipments ==> s < c.nextShipment)
    && (forall i :: i in c.items ==> 0 <= c.items[i].available <= INT4_MAX)
    && (forall r :: r in c.reservations ==>
          && 0 < c.reservations[r].quantity
          && c.reservations[r].orderId in c.orders
          && c.reservations[r].itemId in c.items)
    && (forall p :: p in c.payments ==> c.payments[p].orderId in c.orders)
    && (forall s :: s in c.shipments ==> c.shipments[s].orderId in c.orders)
  }

  /** Quantity of item `item` held by the reservations with an id below `n` that are still 'reserved'. */
  function HeldBelow(reservations: map<nat, Reservation>, n: nat, item: nat): int {
    if n == 0 then 0 else
      HeldBelow(reservations, n - 1, item) +
      if n - 1 in reservations && reservations[n - 1].itemId == item && reservations[n - 1].status == Reserved
      then reservations[n - 1].quantity else 0
  }

  function Held(c: Core, item: nat): int {
    HeldBelow(c.reservations, c.nextReservation, item)
  }

  /** The quantity that stock conservation keeps constant. */
  function TotalStock(c: Core, item: nat): int
    requires item in c.items
  {
    c.items[item].available + Held(c, item)
  }

  lemma {:induction false} HeldBelowFrame(before: map<nat, Reservation>, after: map<nat, Reservation>, n: nat,
                                             item: nat)
    requires forall r :: r < n ==> (r in before <==> r in after) && (r in before ==> before[r] == after[r])
    ensures HeldBelow(before, n, item) == HeldBelow(after, n, item)
  {
    if n > 0 {
      HeldBelowFrame(before, after, n - 1, item);
    }
  }

  /** The reservations from id `m` on hold nothing negative, and at least what each of them holds. */
  lemma {:induction false} HeldBelowGrows(reservations: map<nat, Reservation>, m: nat, n: nat, item: nat)
    requires m <= n && forall r :: r in reservations ==> 0 < reservations[r].quantity
    ensures HeldBelow(reservations, m, item) <= HeldBelow(reservations, n, item)
    ensures forall r ::
      r in reservations && m <= r < n && reservations[r].itemId == item && reservations[r].status == Reserved ==>
        HeldBelow(reservations, m, item) + reservations[r].quantity <= HeldBelow(reservations, n, item)
  {
    if m < n {
      HeldBelowGrows(reservations, m, n - 1, item);
    }
  }

  /** Releasing a reservation that was still 'reserved' takes exactly its quantity out of the held amount. */
  lemma {:induction false} HeldBelowRelease(reservations: map<nat, Reservation>, n: nat, item: nat, r: nat)
    requires r < n && r in reservations && reservations[r].status == Reserved
    ensures HeldBelow(reservations[r := reservations[r].(status := Released)], n, item)
      == HeldBelow(reservations, n, item) - if reservations[r].itemId == item then reservations[r].quantity else 0
  {
    var after := reservations[r := reservations[r].(status := Released)];
    if r == n - 1 {
      HeldBelowFrame(reservations, after, n - 1, item);
    } else {
      HeldBelowRelease(reservations, n - 1, item, r);
    }
  }
}
