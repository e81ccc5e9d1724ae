/** The saga tables as an object, and the step functions that change it one transaction at a time. */
module SagaDatabase {
  import opened Integers
  import opened Wrappers
  import opened SagaTables
  import opened SagaSteps

  class Database {
    var orders: map<nat, Order>
    var items: map<nat, Item>
    var skuIndex: map<string, nat>
    var reservations: map<nat, Reservation>
    var payments: map<nat, Payment>
    var shipments: map<nat, Shipment>
    var nextOrder: nat
    var nextReservation: nat
    var nextPayment: nat
    var nextShipment: nat
    var sagaLog: seq<LogRow>

    function Rows(): Core
      reads this
    {
      Core(orders, items, skuIndex, reservations, payments, shipments, nextOrder, nextReservation, nextPayment,
        nextShipment)
    }

    function View(): Tables
      reads this
    {
      Tables(Rows(), sagaLog)
    }

    constructor (items: map<nat, Item>, skuIndex: map<string, nat>)
      ensures View() == Tables(Core(map[], items, skuIndex, map[], map[], map[], 1, 1, 1, 1), [])
    {
      this.orders, this.reservations, this.payments, this.shipments := map[], map[], map[], map[];
      this.items, this.skuIndex := items, skuIndex;
      this.nextOrder, this.nextReservation, this.nextPayment, this.nextShipment := 1, 1, 1, 1;
      this.sagaLog := [];
    }

    /** ROLLBACK: every row as it was at BEGIN; identity sequences do not go back. */
    method Rollback(begin: Core)
      modifies this
      ensures sagaLog == old(sagaLog)
      ensures Rows() == begin.(nextOrder := old(nextOrder), nextReservation := old(nextReservation),
                               nextPayment := old(nextPayment), nextShipment := old(nextShipment))
    {
      orders, items, skuIndex := begin.orders, begin.items, begin.skuIndex;
      reservations, payments, shipments := begin.reservations, begin.payments, begin.shipments;
    }

    method InsertSagaLog(row: LogRow)
      modifies this`sagaLog
      ensures sagaLog == old(sagaLog) + [row]
    {
      sagaLog := sagaLog + [row];
    }

    /** The end of every step: ROLLBACK if its work threw, and its log row either way. */
    method EndStep(begin: Core, failed: bool, row: LogRow)
      modifies this
      ensures sagaLog == old(sagaLog) + [row]
      ensures Rows() == if failed then begin.(nextOrder := old(nextOrder), nextReservation := old(nextReservation),
                                              nextPayment := old(nextPayment), nextShipment := old(nextShipment))
                        else old(Rows())
    {
      if failed {
        Rollback(begin);
      }
      InsertSagaLog(row);
    }

    method CreateOrderStep(mechanism: Mechanism, input: SagaInput, simulateFailure: bool)
      returns (r: Result<nat, Reason>)
      modifies this
      ensures var e := CreateOrderEffect(old(Rows()), input, simulateFailure);
        r == e.result && View() == Tables(e.core, old(sagaLog) + [CreateOrderRow(mechanism, input, r)])
      ensures r.Ok? <==> !simulateFailure && 1 <= input.amountCents <= 2147483647
      ensures orders == if r.Err? then old(orders)
                        else old(orders)[r.value := Order(input.customerName, input.amountCents, Pending)]
    {
      var begin := Rows();
      if simulateFailure {
        r := Err(Simulated);
      } else if !FitsInt4(input.amountCents) {
        r := Err(OutOfRange);
      } else {
        var id := nextOrder;
        nextOrder := nextOrder + 1;
        orders := orders[id := Order(input.customerName, input.amountCents, Pending)];
        r := if input.amountCents > 0 then Ok(id) else Err(CheckViolated);
      }
      EndStep(begin, r.Err?, CreateOrderRow(mechanism, input, r));
    }

    method ReserveInventoryStep(mechanism: Mechanism, order: nat, sku: string, quantity: int, simulateFailure: bool)
      returns (r: Result<ReservationRef, Reason>)
      modifies this
      ensures var e := ReserveInventoryEffect(old(Rows()), order, sku, quantity, simulateFailure);
        && r == e.result
        && View() == Tables(e.core, old(sagaLog) + [ReserveInventoryRow(mechanism, order, sku, quantity, r)])
      ensures r.Ok? ==>
        var ReservationRef(id, item, reserved) := r.value;
        && 1 <= quantity == reserved && sku in skuIndex && item == skuIndex[sku] && item in old(items)
        && quantity <= old(items)[item].available
        && items == old(items)[item := Item(old(items)[item].sku, old(items)[item].available - quantity)]
        && reservations == old(reservations)[id := Reservation(order, item, quantity, Reserved)]
    {
      var begin := Rows();
      if simulateFailure {
        r := Err(Simulated);
      } else if sku !in skuIndex || skuIndex[sku] !in items {
        r := Err(UnknownSku(sku));
      } else {
        var id := skuIndex[sku];
        var item := items[id];
        if item.available < quantity {
          r := Err(InsufficientInventory(item.available, quantity));
        } else if !FitsInt4(quantity) || !FitsInt4(item.available - quantity) {
          r := Err(OutOfRange);
        } else {
          items := items[id := item.(available := item.available - quantity)];
          var reservation := nextReservation;
          nextReservation := nextReservation + 1;
          reservations := reservations[reservation := Reservation(order, id, quantity, Reserved)];
          r := if quantity > 0 then Ok(ReservationRef(reservation, id, quantity)) else Err(CheckViolated);
        }
      }
      EndStep(begin, r.Err?, ReserveInventoryRow(mechanism, order, sku, quantity, r));
    }

    method CapturePaymentStep(mechanism: Mechanism, order: nat, amountCents: int, simulateFailure: bool)
      returns (r: Result<nat, Reason>)
      modifies this
      ensures var e := CapturePaymentEffect(old(Rows()), order, amountCents, simulateFailure);
        r == e.result && View() == Tables(e.core, old(sagaLog) + [CapturePaymentRow(mechanism, order, amountCents, r)])
      ensures r.Ok? <==> !simulateFailure && 1 <= amountCents <= 2147483647
      ensures payments == if r.Err? then old(payments)
                          else old(payments)[r.value := Payment(order, amountCents, Captured)]
    {
      var begin := Rows();
      if simulateFailure {
        r := Err(Simulated);
      } else if !FitsInt4(amountCents) {
        r := Err(OutOfRange);
      } else {
        var id := nextPayment;
        nextPayment := nextPayment + 1;
        payments := payments[id := Payment(order, amountCents, Captured)];
        r := if amountCents > 0 then Ok(id) else Err(CheckViolated);
      }
      EndStep(begin, r.Err?, CapturePaymentRow(mechanism, order, amountCents, r));
    }

    method CreateShipmentStep(mechanism: Mechanism, order: nat, simulateFailure: bool) returns (r: Result<nat, Reason>)
      modifies this
      ensures var e := CreateShipmentEffect(old(Rows()), order, simulateFailure);
        r == e.result && View() == Tables(e.core, old(sagaLog) + [CreateShipmentRow(mechanism, order, r)])
    {
      var begin := Rows();
      if simulateFailure {
        r := Err(Simulated);
      } else {
        r := Ok(nextShipment);
        shipments := shipments[nextShipment := Shipment(order)];
        nextShipment := nextShipment + 1;
      }
      EndStep(begin, r.Err?, CreateShipmentRow(mechanism, order, r));
    }

    method CompleteOrderStep(mechanism: Mechanism, order: nat) returns (r: Result<(), Reason>)
      modifies this
      ensures var e := CompleteOrderEffect(old(Rows()), order);
        r == e.result && View() == Tables(e.core, old(sagaLog) + [CompleteOrderRow(mechanism, order, r)])
    {
      var begin := Rows();
      if order in orders {
        orders := orders[order := orders[order].(status := Completed)];
      }
      r := Ok(());
      EndStep(begin, false, CompleteOrderRow(mechanism, order, r));
    }

    method RefundPaymentStep(mechanism: Mechanism, order: nat, payment: nat) returns (r: Result<(), Reason>)
      modifies this
      ensures var e := RefundPaymentEffect(old(Rows()), payment);
        r == e.result && View() == Tables(e.core, old(sagaLog) + [RefundPaymentRow(mechanism, order, payment, r)])
    {
      var begin := Rows();
      if payment in payments {
        payments := payments[payment := payments[payment].(status := Refunded)];
      }
      r := Ok(());
      EndStep(begin, false, RefundPaymentRow(mechanism, order, payment, r));
    }

    method ReleaseInventoryStep(mechanism: Mechanism, order: nat, ref: ReservationRef) returns (r: Result<(), Reason>)
      modifies this
      ensures var e := ReleaseInventoryEffect(old(Rows()), ref);
        r == e.result && View() == Tables(e.core, old(sagaLog) + [ReleaseInventoryRow(mechanism, order, ref, r)])
    {
      var begin := Rows();
      r := Ok(());
      if !FitsInt4(ref.quantity) {
        r := Err(OutOfRange);
      } else if ref.itemId in items {
        var available := items[ref.itemId].available + ref.quantity;
        items := items[ref.itemId := items[ref.itemId].(available := available)];
        r := if !FitsInt4(available) then Err(OutOfRange) else if available < 0 then Err(CheckViolated) else Ok(());
      }
      if r.Ok? && ref.reservationId in reservations {
        reservations := reservations[ref.reservationId := reservations[ref.reservationId].(status := Released)];
      }
      EndStep(begin, r.Err?, ReleaseInventoryRow(mechanism, order, ref, r));
    }

    method CancelOrderStep(mechanism: Mechanism, order: nat) returns (r: Result<(), Reason>)
      modifies this
      ensures var e := CancelOrderEffect(old(Rows()), order);
        r == e.result && View() == Tables(e.core, old(sagaLog) + [CancelOrderRow(mechanism, order, r)])
    {
      var begin := Rows();
      if order in orders {
        orders := orders[order := orders[order].(status := Cancelled)];
      }
      r := Ok(());
      EndStep(begin, false, CancelOrderRow(mechanism, order, r));
    }
  }
}
