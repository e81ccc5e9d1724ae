/** The business steps shared by both coordination styles, each as the effect of one transaction. */
module SagaSteps {
  import opened Integers
  import opened Wrappers
  import opened SagaTables

  /** What a step's transaction leaves behind: the tables, and the step's own result.
      A rolled-back INSERT still consumes the identity value it drew. */
  datatype StepEffect<+T> = StepEffect(core: Core, result: Result<T, Reason>)

  function CreateOrderEffect(c: Core, input: SagaInput, fail: bool): (e: StepEffect<nat>)
    ensures e.core == c.(orders := e.core.orders, nextOrder := e.core.nextOrder)
  {
    if fail then StepEffect(c, Err(Simulated))
    else if !FitsInt4(input.amountCents) then StepEffect(c, Err(OutOfRange))
    else if input.amountCents <= 0 then StepEffect(c.(nextOrder := c.nextOrder + 1), Err(CheckViolated))
    else StepEffect(
      c.(orders := c.orders[c.nextOrder := Order(input.customerName, input.amountCents, Pending)],
         nextOrder := c.nextOrder + 1),
      Ok(c.nextOrder))
  }

  /** An item id outside the items table cannot come out of the unique index; it reads as an unknown SKU. */
  function ReserveInventoryEffect(c: Core, order: nat, sku: string, quantity: int,
                                  fail: bool): (e: StepEffect<ReservationRef>)
    ensures e.core
      == c.(items := e.core.items, reservations := e.core.reservations, nextReservation := e.core.nextReservation)
  {
    if fail then StepEffect(c, Err(Simulated))
    else if sku !in c.skuIndex || c.skuIndex[sku] !in c.items then StepEffect(c, Err(UnknownSku(sku)))
    else
      var id := c.skuIndex[sku];
      var item := c.items[id];
      if item.available < quantity then StepEffect(c, Err(InsufficientInventory(item.available, quantity)))
      else if !FitsInt4(quantity) || !FitsInt4(item.available - quantity) then StepEffect(c, Err(OutOfRange))
      else if quantity <= 0 then StepEffect(c.(nextReservation := c.nextReservation + 1), Err(CheckViolated))
      else StepEffect(
        c.(items := c.items[id := item.(available := item.available - quantity)],
           reservations := c.reservations[c.nextReservation := Reservation(order, id, quantity, Reserved)],
           nextReservation := c.nextReservation + 1),
        Ok(ReservationRef(c.nextReservation, id, quantity)))
  }

  function CapturePaymentEffect(c: Core, order: nat, amountCents: int, fail: bool): (e: StepEffect<nat>)
    ensures e.core == c.(payments := e.core.payments, nextPayment := e.core.nextPayment)
  {
    if fail then StepEffect(c, Err(Simulated))
    else if !FitsInt4(amountCents) then StepEffect(c, Err(OutOfRange))
    else if amountCents <= 0 then StepEffect(c.(nextPayment := c.nextPayment + 1), Err(CheckViolated))
    else StepEffect(
      c.(payments := c.payments[c.nextPayment := Payment(order, amountCents, Captured)],
         nextPayment := c.nextPayment + 1),
      Ok(c.nextPayment))
  }

  function CreateShipmentEffect(c: Core, order: nat, fail: bool): (e: StepEffect<nat>)
    ensures e.core == c.(shipments := e.core.shipments, nextShipment := e.core.nextShipment)
  {
    if fail then StepEffect(c, Err(Simulated))
    else StepEffect(
      c.(shipments := c.shipments[c.nextShipment := Shipment(order)], nextShipment := c.nextShipment + 1),
      Ok(c.nextShipment))
  }

  function SetOrderStatus(c: Core, order: nat, status: OrderStatus): (d: Core)
    ensures d == c.(orders := d.orders)
  {
    if order in c.orders then c.(orders := c.orders[order := c.orders[order].(status := status)]) else c
  }

  function CompleteOrderEffect(c: Core, order: nat): StepEffect<()> {
    StepEffect(SetOrderStatus(c, order, Completed), Ok(()))
  }

  function CancelOrderEffect(c: Core, order: nat): StepEffect<()> {
    StepEffect(SetOrderStatus(c, order, Cancelled), Ok(()))
  }

  function RefundPaymentEffect(c: Core, payment: nat): (e: StepEffect<()>)
    ensures e.core == c.(payments := e.core.payments)
  {
    StepEffect(
      if payment in c.payments
      then c.(payments := c.payments[payment := c.payments[payment].(status := Refunded)])
      else c,
      Ok(()))
  }

  /** Two unguarded UPDATEs: nothing asks whether the reservation is still 'reserved'. */
  function ReleaseInventoryEffect(c: Core, ref: ReservationRef): (e: StepEffect<()>)
    ensures e.core == c.(items := e.core.items, reservations := e.core.reservations)
  {
    var items :=
      if ref.itemId in c.items
      then c.items[ref.itemId := c.items[ref.itemId].(available := c.items[ref.itemId].available + ref.quantity)]
      else c.items;
    if !FitsInt4(ref.quantity) || (ref.itemId in items && !FitsInt4(items[ref.itemId].available))
    then StepEffect(c, Err(OutOfRange))
    else if ref.itemId in items && items[ref.itemId].available < 0 then StepEffect(c, Err(CheckViolated))
    else
      var id := ref.reservationId;
      var reservations :=
        if id in c.reservations then c.reservations[id := c.reservations[id].(status := Released)] else c.reservations;
      StepEffect(c.(items := items, reservations := reservations), Ok(()))
  }

  /** The `saga_log` row of a step: written inside the transaction on success, after ROLLBACK on failure. */
  function StepRow<T>(order: Option<nat>, mechanism: Mechanism, step: StepName, direction: Direction,
                      detail: Detail, result: Result<T, Reason>): LogRow {
    match result
    case Ok(_) => LogRow(order, mechanism, StepLabel(step), direction, Success, detail)
    case Err(why) => LogRow(order, mechanism, StepLabel(step), direction, Failure, FailureDetail(detail, why))
  }

  /** `createOrder` knows its order id only on success, so its failure row carries no order id. */
  function CreateOrderRow(mechanism: Mechanism, input: SagaInput, result: Result<nat, Reason>): LogRow {
    match result
    case Ok(o) =>
      StepRow(Some(o), mechanism, CreateOrder, Forward, OrderDetail(input.customerName, input.amountCents), result)
    case Err(_) => StepRow(None, mechanism, CreateOrder, Forward, CustomerDetail(input.customerName), result)
  }

  function ReserveInventoryRow(mechanism: Mechanism, order: nat, sku: string, quantity: int,
                               result: Result<ReservationRef, Reason>): LogRow {
    StepRow(Some(order), mechanism, ReserveInventory, Forward, SkuDetail(sku, quantity), result)
  }

  function CapturePaymentRow(mechanism: Mechanism, order: nat, amountCents: int, result: Result<nat, Reason>): LogRow {
    StepRow(Some(order), mechanism, CapturePayment, Forward, AmountDetail(amountCents), result)
  }

  function CreateShipmentRow(mechanism: Mechanism, order: nat, result: Result<nat, Reason>): LogRow {
    StepRow(Some(order), mechanism, CreateShipment, Forward, NoDetail, result)
  }

  function CompleteOrderRow(mechanism: Mechanism, order: nat, result: Result<(), Reason>): LogRow {
    StepRow(Some(order), mechanism, CompleteOrder, Forward, NoDetail, result)
  }

  function RefundPaymentRow(mechanism: Mechanism, order: nat, payment: nat, result: Result<(), Reason>): LogRow {
    StepRow(Some(order), mechanism, RefundPayment, Compensate, PaymentDetail(payment), result)
  }

  function ReleaseInventoryRow(mechanism: Mechanism, order: nat, ref: ReservationRef,
                               result: Result<(), Reason>): LogRow {
    StepRow(Some(order), mechanism, ReleaseInventory, Compensate, ReservationDetail(ref), result)
  }

  function CancelOrderRow(mechanism: Mechanism, order: nat, result: Result<(), Reason>): LogRow {
    StepRow(Some(order), mechanism, CancelOrder, Compensate, NoDetail, result)
  }
}
