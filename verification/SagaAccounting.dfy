/** The success rows of `saga_log` account for the current stock and statuses, in every interleaving. */
module SagaAccounting {
  import opened Wrappers
  import opened SagaTables
  import opened SagaSteps
  import opened SagaProtocol
  import opened SagaSafety

  predicate Succeeded(row: LogRow, step: StepName) {
    row.outcome == Success && row.name == StepLabel(step)
  }

  /** Quantity the rows say was reserved of a SKU. */
  function LoggedReserved(rows: seq<LogRow>, sku: string): int {
    if rows == [] then 0 else
      var last := rows[|rows| - 1];
      LoggedReserved(rows[..|rows| - 1], sku) +
      if Succeeded(last, ReserveInventory) && last.detail.SkuDetail? && last.detail.sku == sku
      then last.detail.quantity else 0
  }

  /** Quantity the rows say was given back to an item. */
  function LoggedReleased(rows: seq<LogRow>, item: nat): int {
    if rows == [] then 0 else
      var last := rows[|rows| - 1];
      LoggedReleased(rows[..|rows| - 1], item) +
      if Succeeded(last, ReleaseInventory) && last.detail.ReservationDetail? && last.detail.reservation.itemId == item
      then last.detail.reservation.quantity else 0
  }

  /** How often the rows say a reservation was released. */
  function Releases(rows: seq<LogRow>, reservation: nat): nat {
    if rows == [] then 0 else
      var last := rows[|rows| - 1];
      Releases(rows[..|rows| - 1], reservation) +
      if Succeeded(last, ReleaseInventory) && last.detail.ReservationDetail?
        && last.detail.reservation.reservationId == reservation
      then 1 else 0
  }

  function Refunds(rows: seq<LogRow>, payment: nat): nat {
    if rows == [] then 0 else
      var last := rows[|rows| - 1];
      Refunds(rows[..|rows| - 1], payment) +
      if Succeeded(last, RefundPayment) && last.detail == PaymentDetail(payment) then 1 else 0
  }

  /** How many payments the rows say were captured for an order. */
  function Captures(rows: seq<LogRow>, order: nat): nat {
    if rows == [] then 0 else
      var last := rows[|rows| - 1];
      Captures(rows[..|rows| - 1], order) +
      if Succeeded(last, CapturePayment) && last.orderId == Some(order) then 1 else 0
  }

  function Dispatches(rows: seq<LogRow>, order: nat): nat {
    if rows == [] then 0 else
      var last := rows[|rows| - 1];
      Dispatches(rows[..|rows| - 1], order) +
      if Succeeded(last, CreateShipment) && last.orderId == Some(order) then 1 else 0
  }

  /** The payments of an order, captured or refunded. */
  function PaymentsFor(c: Core, order: nat): set<nat> {
    set p | p in c.payments && c.payments[p].orderId == order
  }

  /** The order's status as its latest success row tells it; none if no row created it. */
  function LoggedStatus(rows: seq<LogRow>, order: nat): Option<OrderStatus> {
    if rows == [] then None else
      var last := rows[|rows| - 1];
      if last.orderId != Some(order) then LoggedStatus(rows[..|rows| - 1], order)
      else if Succeeded(last, CreateOrder) then Some(Pending)
      else if Succeeded(last, CompleteOrder) then Some(Completed)
      else if Succeeded(last, CancelOrder) then Some(Cancelled)
      else LoggedStatus(rows[..|rows| - 1], order)
  }

  ghost predicate StockAccounted(c0: Core, c: Core, rows: seq<LogRow>) {
    && c.items.Keys == c0.items.Keys && c.skuIndex == c0.skuIndex
    && forall i :: i in c0.items ==>
      && c.items[i].sku == c0.items[i].sku
      && c.items[i].available == c0.items[i].available - LoggedReserved(rows, c0.items[i].sku) + LoggedReleased(rows, i)
  }

  ghost predicate OrdersAccounted(c0: Core, c: Core, rows: seq<LogRow>) {
    && c0.nextOrder <= c.nextOrder
    && forall o :: c0.nextOrder <= o ==>
      LoggedStatus(rows, o) == if o in c.orders then Some(c.orders[o].status) else None
  }

  ghost predicate PaymentsAccounted(c0: Core, c: Core, rows: seq<LogRow>) {
    && c0.nextPayment <= c.nextPayment
    && forall p :: c0.nextPayment <= p ==>
      Refunds(rows, p) == if p in c.payments && c.payments[p].status == Refunded then 1 else 0
  }

  ghost predicate CapturesAccounted(c0: Core, c: Core, rows: seq<LogRow>) {
    forall o :: c0.nextOrder <= o ==> Captures(rows, o) == |PaymentsFor(c, o)|
  }

  ghost predicate ShipmentsAccounted(c0: Core, c: Core, rows: seq<LogRow>) {
    forall o :: c0.nextOrder <= o ==> Dispatches(rows, o) == |ShipmentsOf(c, o)|
  }

  ghost predicate ReservationsAccounted(c0: Core, c: Core, rows: seq<LogRow>) {
    && c0.nextReservation <= c.nextReservation
    && forall r :: c0.nextReservation <= r ==>
      Releases(rows, r) == if r in c.reservations && c.reservations[r].status == Released then 1 else 0
  }

  ghost predicate Accounted(c0: Core, c: Core, rows: seq<LogRow>) {
    && StockAccounted(c0, c, rows) && OrdersAccounted(c0, c, rows) && ReservationsAccounted(c0, c, rows)
    && PaymentsAccounted(c0, c, rows) && CapturesAccounted(c0, c, rows) && ShipmentsAccounted(c0, c, rows)
  }

  // What a success row says was committed with it, table by table.

  predicate StockTold(c: Core, row: LogRow, d: Core)
    requires row.name.StepLabel?
  {
    && d.skuIndex == c.skuIndex
    && match row.name.step
       case ReserveInventory =>
         && row.detail.SkuDetail? && row.detail.sku in c.skuIndex
         && var i := c.skuIndex[row.detail.sku];
           i in c.items && d.items == c.items[i := c.items[i].(available := c.items[i].available - row.detail.quantity)]
       case ReleaseInventory =>
         && row.detail.ReservationDetail?
         && var ref := row.detail.reservation;
           && ref.itemId in c.items
           && d.items == c.items[ref.itemId :=
              c.items[ref.itemId].(available := c.items[ref.itemId].available + ref.quantity)]
       case _ => d.items == c.items
  }

  predicate OrdersTold(c: Core, row: LogRow, d: Core)
    requires row.name.StepLabel?
  {
    match row.name.step
    case CreateOrder =>
      && row.orderId == Some(c.nextOrder) && d.nextOrder == c.nextOrder + 1
      && d.orders.Keys == c.orders.Keys + {c.nextOrder}
      && d.orders == c.orders[c.nextOrder := d.orders[c.nextOrder]] && d.orders[c.nextOrder].status == Pending
    case CompleteOrder => StatusTold(c, row, d, Completed)
    case CancelOrder => StatusTold(c, row, d, Cancelled)
    case _ => d.orders == c.orders && d.nextOrder == c.nextOrder
  }

  predicate StatusTold(c: Core, row: LogRow, d: Core, status: OrderStatus) {
    && row.orderId.Some? && row.orderId.value in c.orders && d.nextOrder == c.nextOrder
    && d.orders == c.orders[row.orderId.value := c.orders[row.orderId.value].(status := status)]
  }

  predicate PaymentsTold(c: Core, row: LogRow, d: Core)
    requires row.name.StepLabel?
  {
    match row.name.step
    case CapturePayment =>
      && d.nextPayment == c.nextPayment + 1 && d.payments.Keys == c.payments.Keys + {c.nextPayment}
      && d.payments == c.payments[c.nextPayment := d.payments[c.nextPayment]]
      && d.payments[c.nextPayment].status == Captured
      && row.orderId == Some(d.payments[c.nextPayment].orderId)
    case RefundPayment =>
      && row.detail.PaymentDetail? && row.detail.paymentId in c.payments && d.nextPayment == c.nextPayment
      && c.payments[row.detail.paymentId].status == Captured
      && d.payments == c.payments[row.detail.paymentId := c.payments[row.detail.paymentId].(status := Refunded)]
    case _ => d.payments == c.payments && d.nextPayment == c.nextPayment
  }

  predicate ShipmentsTold(c: Core, row: LogRow, d: Core)
    requires row.name.StepLabel?
  {
    match row.name.step
    case CreateShipment =>
      row.orderId.Some? && d.shipments == c.shipments[c.nextShipment := Shipment(row.orderId.value)]
    case _ => d.shipments == c.shipments
  }

  /** A release meets a reservation that is still 'reserved'. */
  predicate ReservationsTold(c: Core, row: LogRow, d: Core)
    requires row.name.StepLabel?
  {
    match row.name.step
    case ReserveInventory =>
      && d.nextReservation == c.nextReservation + 1 && d.reservations.Keys == c.reservations.Keys + {c.nextReservation}
      && d.reservations == c.reservations[c.nextReservation := d.reservations[c.nextReservation]]
      && d.reservations[c.nextReservation].status == Reserved
    case ReleaseInventory =>
      && row.detail.ReservationDetail?
      && var r := row.detail.reservation.reservationId;
        && r in c.reservations && c.reservations[r].status == Reserved && d.nextReservation == c.nextReservation
        && d.reservations == c.reservations[r := c.reservations[r].(status := Released)]
    case _ => d.reservations == c.reservations && d.nextReservation == c.nextReservation
  }

  ghost predicate RowTells(c: Core, row: LogRow, d: Core) {
    && row.outcome == Success && row.name.StepLabel?
    && StockTold(c, row, d) && OrdersTold(c, row, d) && PaymentsTold(c, row, d) && ReservationsTold(c, row, d)
    && ShipmentsTold(c, row, d)
  }

  /** A rolled-back step leaves the tables alone, apart from the identity values it drew. */
  ghost predicate OnlyIdsDrawn(c: Core, d: Core) {
    && d == c.(nextOrder := d.nextOrder, nextReservation := d.nextReservation, nextPayment := d.nextPayment)
    && c.nextOrder <= d.nextOrder && c.nextReservation <= d.nextReservation && c.nextPayment <= d.nextPayment
  }

  /** One action: a success row with its transaction, another row with no effect, or no row. */
  ghost predicate Explained(before: Tables, after: Tables) {
    || (after.log == before.log && OnlyIdsDrawn(before.core, after.core))
    || (|after.log| == |before.log| + 1 && after.log[..|before.log|] == before.log &&
        var row := after.log[|before.log|];
        (row.outcome != Success && after.core == before.core) || RowTells(before.core, row, after.core))
  }

  predicate PendingIsFailure(phase: Phase) {
    phase.LoggingFailure? ==> phase.row.outcome == Failure && !phase.next.LoggingFailure?
  }

  /** The references that `Owned` vouches for at a stage about to compensate or to finish. */
  ghost predicate RefsInPlace(stage: Stage, c: Core) {
    match stage
    case ToReserve(o) => o in c.orders
    case ToComplete(o) => o in c.orders
    case ToCancel(o) => o in c.orders
    case ToRefund(_, _, p) => p in c.payments && c.payments[p].status == Captured
    case ToRelease(_, r) =>
      r.itemId in c.items && r.reservationId in c.reservations && c.reservations[r.reservationId].status == Reserved
    case _ => true
  }

  lemma OwnedRefsInPlace(stage: Stage, c: Core)
    requires WellFormed(c) && Owned(stage, c)
    ensures RefsInPlace(stage, c)
  {
  }

  lemma CreateTells(c: Core, input: SagaInput, fail: bool, m: Mechanism)
    ensures var e := CreateOrderEffect(c, input, fail);
      if e.result.Ok? then RowTells(c, CreateOrderRow(m, input, e.result), e.core) else OnlyIdsDrawn(c, e.core)
  {
  }

  lemma ReserveTells(c: Core, o: nat, sku: string, quantity: int, fail: bool, m: Mechanism)
    ensures var e := ReserveInventoryEffect(c, o, sku, quantity, fail);
      if e.result.Ok? then RowTells(c, ReserveInventoryRow(m, o, sku, quantity, e.result), e.core)
      else OnlyIdsDrawn(c, e.core)
  {
  }

  lemma CaptureTells(c: Core, o: nat, amountCents: int, fail: bool, m: Mechanism)
    ensures var e := CapturePaymentEffect(c, o, amountCents, fail);
      if e.result.Ok? then RowTells(c, CapturePaymentRow(m, o, amountCents, e.result), e.core)
      else OnlyIdsDrawn(c, e.core)
  {
  }

  lemma ShipTells(c: Core, o: nat, fail: bool, m: Mechanism)
    ensures var e := CreateShipmentEffect(c, o, fail);
      if e.result.Ok? then RowTells(c, CreateShipmentRow(m, o, e.result), e.core) else OnlyIdsDrawn(c, e.core)
  {
  }

  lemma CompensationTells(c: Core, o: nat, r: ReservationRef, p: nat, m: Mechanism)
    ensures RefsInPlace(ToRefund(o, r, p), c) ==>
      var e := RefundPaymentEffect(c, p); RowTells(c, RefundPaymentRow(m, o, p, e.result), e.core)
    ensures RefsInPlace(ToRelease(o, r), c) ==>
      var e := ReleaseInventoryEffect(c, r);
      if e.result.Ok? then RowTells(c, ReleaseInventoryRow(m, o, r, e.result), e.core) else OnlyIdsDrawn(c, e.core)
  {
  }

  lemma StatusTells(c: Core, o: nat, m: Mechanism)
    requires o in c.orders
    ensures var e := CompleteOrderEffect(c, o); RowTells(c, CompleteOrderRow(m, o, e.result), e.core)
    ensures var e := CancelOrderEffect(c, o); RowTells(c, CancelOrderRow(m, o, e.result), e.core)
  {
  }

  lemma OrchestratorExplained(stage: Stage, t: Tables, input: SagaInput, failAt: Option<StepName>)
    requires RefsInPlace(stage, t.core)
    ensures var next := OrchestratorStep(stage, t, input, failAt);
      Explained(t, next.tables) && PendingIsFailure(next.phase)
  {
    var m, c := Orchestration, t.core;
    match stage
    case Unstarted => CreateTells(c, input, failAt == Some(CreateOrder), m); hide RowTells;
    case ToReserve(o) =>
      ReserveTells(c, o, input.sku, input.quantity, failAt == Some(ReserveInventory), m);
      hide RowTells;
    case ToCapture(o, r) => CaptureTells(c, o, input.amountCents, failAt == Some(CapturePayment), m); hide RowTells;
    case ToShip(o, r, p) => ShipTells(c, o, failAt == Some(CreateShipment), m); hide RowTells;
    case ToComplete(o) => StatusTells(c, o, m); hide RowTells;
    case ToRefund(o, r, p) => CompensationTells(c, o, r, p, m); hide RowTells;
    case ToRelease(o, r) => CompensationTells(c, o, r, 0, m); hide RowTells;
    case ToCancel(o) => StatusTells(c, o, m); hide RowTells;
    case _ =>
  }

  lemma HandlerExplained(event: Event, t: Tables, failAt: Option<StepName>)
    requires RefsInPlace(EventStage(event), t.core)
    ensures var next := HandlerStep(event, t, failAt); Explained(t, next.tables) && PendingIsFailure(next.phase)
  {
    if InForwardChain(event.Name()) {
      ForwardHandlerExplained(event, t, failAt);
    } else {
      CompensationHandlerExplained(event, t, failAt);
    }
  }

  lemma ForwardHandlerExplained(event: Event, t: Tables, failAt: Option<StepName>)
    requires RefsInPlace(EventStage(event), t.core) && InForwardChain(event.Name())
    ensures var next := HandlerStep(event, t, failAt); Explained(t, next.tables) && PendingIsFailure(next.phase)
  {
    var m, c := Choreography, t.core;
    match event
    case OrderCreated(o, sku, quantity, _) =>
      ReserveTells(c, o, sku, quantity, failAt == Some(ReserveInventory), m);
      hide RowTells;
    case InventoryReserved(o, _, amount) =>
      CaptureTells(c, o, amount, failAt == Some(CapturePayment), m);
      hide RowTells;
    case PaymentCaptured(o, _, _) => ShipTells(c, o, failAt == Some(CreateShipment), m); hide RowTells;
    case ShipmentCreated(o, _) => StatusTells(c, o, m); hide RowTells;
  }

  lemma CompensationHandlerExplained(event: Event, t: Tables, failAt: Option<StepName>)
    requires RefsInPlace(EventStage(event), t.core) && !InForwardChain(event.Name())
    ensures var next := HandlerStep(event, t, failAt); Explained(t, next.tables) && PendingIsFailure(next.phase)
  {
    var m, c := Choreography, t.core;
    match event
    case InventoryReservationFailed(o, _) => StatusTells(c, o, m); hide RowTells;
    case PaymentFailed(o, _, r) => CompensationTells(c, o, r, 0, m); hide RowTells;
    case ShipmentFailed(o, _, p, r) => CompensationTells(c, o, r, p, m); hide RowTells;
    case PaymentRefunded(o, r) => CompensationTells(c, o, r, 0, m); hide RowTells;
    case InventoryReleased(o) => StatusTells(c, o, m); hide RowTells;
    case OrderCancelled(_) =>
  }

  lemma StepExplained(phase: Phase, t: Tables, input: SagaInput, failAt: Option<StepName>)
    requires PendingIsFailure(phase) && RefsInPlace(StageOf(phase), t.core)
    ensures var next := Step(phase, t, input, failAt); Explained(t, next.tables) && PendingIsFailure(next.phase)
  {
    match phase
    case Orchestrating(s) => OrchestratorExplained(s, t, input, failAt);
    case Starting => CreateTells(t.core, input, failAt == Some(CreateOrder), Choreography);
    case Handling(e) => HandlerExplained(e, t, failAt);
    case _ =>
  }

  lemma IgnoredRow(rows: seq<LogRow>, row: LogRow)
    requires row.outcome != Success
    ensures forall sku :: LoggedReserved(rows + [row], sku) == LoggedReserved(rows, sku)
    ensures forall i :: LoggedReleased(rows + [row], i) == LoggedReleased(rows, i)
    ensures forall o :: LoggedStatus(rows + [row], o) == LoggedStatus(rows, o)
    ensures forall p :: Refunds(rows + [row], p) == Refunds(rows, p)
    ensures forall r :: Releases(rows + [row], r) == Releases(rows, r)
    ensures forall o :: Captures(rows + [row], o) == Captures(rows, o)
    ensures forall o :: Dispatches(rows + [row], o) == Dispatches(rows, o)
  {
    assert (rows + [row])[..|rows|] == rows;
  }

  lemma TellsStock(c0: Core, c: Core, rows: seq<LogRow>, row: LogRow, d: Core)
    requires StockAccounted(c0, c, rows) && SkusIndexed(c0) && row.outcome == Success && row.name.StepLabel?
      && StockTold(c, row, d)
    ensures StockAccounted(c0, d, rows + [row])
  {
    assert (rows + [row])[..|rows|] == rows;
  }

  lemma TellsOrders(c0: Core, c: Core, rows: seq<LogRow>, row: LogRow, d: Core)
    requires OrdersAccounted(c0, c, rows) && row.outcome == Success && row.name.StepLabel? && OrdersTold(c, row, d)
    ensures OrdersAccounted(c0, d, rows + [row])
  {
    assert (rows + [row])[..|rows|] == rows;
  }

  lemma TellsPayments(c0: Core, c: Core, rows: seq<LogRow>, row: LogRow, d: Core)
    requires PaymentsAccounted(c0, c, rows) && WellFormed(c)
    requires row.outcome == Success && row.name.StepLabel? && PaymentsTold(c, row, d)
    ensures PaymentsAccounted(c0, d, rows + [row])
  {
    assert (rows + [row])[..|rows|] == rows;
  }

  /** A capture adds one payment to its order, and no other step adds or removes one. */
  lemma PaymentsForTold(c: Core, row: LogRow, d: Core, o: nat)
    requires WellFormed(c) && row.outcome == Success && row.name.StepLabel? && PaymentsTold(c, row, d)
    ensures PaymentsFor(d, o)
      == PaymentsFor(c, o) + if row.name.step.CapturePayment? && row.orderId == Some(o) then {c.nextPayment} else {}
  {
    match row.name.step
    case CapturePayment =>
    case RefundPayment =>
    case _ =>
  }

  lemma TellsCaptures(c0: Core, c: Core, rows: seq<LogRow>, row: LogRow, d: Core)
    requires CapturesAccounted(c0, c, rows) && WellFormed(c)
    requires row.outcome == Success && row.name.StepLabel? && PaymentsTold(c, row, d)
    ensures CapturesAccounted(c0, d, rows + [row])
  {
    assert (rows + [row])[..|rows|] == rows;
    forall o: nat | c0.nextOrder <= o ensures Captures(rows + [row], o) == |PaymentsFor(d, o)| {
      PaymentsForTold(c, row, d, o);
      assert c.nextPayment !in PaymentsFor(c, o);
      hide PaymentsTold, PaymentsFor, WellFormed;
    }
  }

  lemma TellsShipments(c0: Core, c: Core, rows: seq<LogRow>, row: LogRow, d: Core)
    requires ShipmentsAccounted(c0, c, rows) && WellFormed(c)
    requires row.outcome == Success && row.name.StepLabel? && ShipmentsTold(c, row, d)
    ensures ShipmentsAccounted(c0, d, rows + [row])
  {
    assert (rows + [row])[..|rows|] == rows;
    forall o | c0.nextOrder <= o ensures Dispatches(rows + [row], o) == |ShipmentsOf(d, o)| {
      if row.name.step.CreateShipment? && row.orderId == Some(o) {
        assert ShipmentsOf(d, o) == ShipmentsOf(c, o) + {c.nextShipment};
      } else {
        assert ShipmentsOf(d, o) == ShipmentsOf(c, o);
      }
    }
  }

  /** Rolled-back work shows in neither the rows nor the sets of payments and shipments. */
  lemma SameCounts(c: Core, d: Core)
    ensures c.payments == d.payments ==> forall o :: PaymentsFor(c, o) == PaymentsFor(d, o)
    ensures c.shipments == d.shipments ==> forall o :: ShipmentsOf(c, o) == ShipmentsOf(d, o)
  {
  }

  lemma TellsReservations(c0: Core, c: Core, rows: seq<LogRow>, row: LogRow, d: Core)
    requires ReservationsAccounted(c0, c, rows) && WellFormed(c)
    requires row.outcome == Success && row.name.StepLabel? && ReservationsTold(c, row, d)
    ensures ReservationsAccounted(c0, d, rows + [row])
  {
    assert (rows + [row])[..|rows|] == rows;
  }

  lemma TellsAll(c0: Core, before: Tables, after: Tables, rows: seq<LogRow>)
    requires Accounted(c0, before.core, rows) && SkusIndexed(c0) && WellFormed(before.core) && Explained(before, after)
    ensures |before.log| <= |after.log| && Accounted(c0, after.core, rows + after.log[|before.log|..])
  {
    SameCounts(before.core, after.core);
    if after.log == before.log {
      assert rows + after.log[|before.log|..] == rows;
    } else {
      var row := after.log[|before.log|];
      assert after.log[|before.log|..] == [row];
      if row.outcome != Success {
        IgnoredRow(rows, row);
      } else {
        TellsStock(c0, before.core, rows, row, after.core);
        TellsOrders(c0, before.core, rows, row, after.core);
        TellsPayments(c0, before.core, rows, row, after.core);
        TellsReservations(c0, before.core, rows, row, after.core);
        TellsCaptures(c0, before.core, rows, row, after.core);
        TellsShipments(c0, before.core, rows, row, after.core);
      }
    }
  }

  // ---- Over whole runs ----

  ghost predicate AccountedSince(c0: Core, n: nat, s: System) {
    && n <= |s.tables.log| && Accounted(c0, s.tables.core, s.tables.log[n..])
    && (forall id :: id in s.sagas ==> PendingIsFailure(s.sagas[id].phase))
  }

  lemma ActKeepsAccounts(c0: Core, n: nat, s: System, id: nat)
    requires Inv(c0, s) && SkusIndexed(c0) && AccountedSince(c0, n, s)
    ensures AccountedSince(c0, n, Act(s, id))
  {
    if id in s.sagas {
      var g := s.sagas[id];
      var t := Act(s, id).tables;
      OwnedRefsInPlace(StageOf(g.phase), s.tables.core);
      StepExplained(g.phase, s.tables, g.input, g.failAt);
      TellsAll(c0, s.tables, t, s.tables.log[n..]);
      assert t.log[n..] == s.tables.log[n..] + t.log[|s.tables.log|..];
    }
  }

  lemma NoneOfNewOrders(c: Core)
    requires WellFormed(c)
    ensures forall o :: c.nextOrder <= o ==> PaymentsFor(c, o) == {} && ShipmentsOf(c, o) == {}
  {
    assert forall p :: p in c.payments ==> c.payments[p].orderId in c.orders;
    assert forall s :: s in c.shipments ==> c.shipments[s].orderId in c.orders;
  }

  /** In every interleaving, the success rows logged since the start account exactly for the change of every item's
      stock and for every order, payment, reservation and shipment made since: each order has the status of its
      latest row and as many payments and shipments as rows that made them; a refunded payment has one refund and
      a released reservation one release, and no other has any. */
  lemma {:induction false} LogAccountsForTables(s: System, schedule: seq<nat>)
    requires Initial(s) && SkusIndexed(s.tables.core)
    ensures AccountedSince(s.tables.core, |s.tables.log|, Run(s, schedule))
  {
    if schedule == [] {
      NoneOfNewOrders(s.tables.core);
      assert s.tables.log[|s.tables.log|..] == [];
    } else {
      var before := Run(s, schedule[..|schedule| - 1]);
      LogAccountsForTables(s, schedule[..|schedule| - 1]);
      RunKeepsInv(s, schedule[..|schedule| - 1]);
      ActKeepsAccounts(s.tables.core, |s.tables.log|, before, schedule[|schedule| - 1]);
    }
  }

  /** No reservation is ever released twice. */
  lemma ReleasedAtMostOnce(s: System, schedule: seq<nat>, reservation: nat)
    requires Initial(s) && SkusIndexed(s.tables.core) && s.tables.core.nextReservation <= reservation
    ensures var e := Run(s, schedule).tables;
      && |s.tables.log| <= |e.log|
      && Releases(e.log[|s.tables.log|..], reservation)
        == if reservation in e.core.reservations && e.core.reservations[reservation].status == Released then 1 else 0
  {
    LogAccountsForTables(s, schedule);
  }
}
