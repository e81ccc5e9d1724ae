/** Any number of sagas of both styles, interleaved one database action at a time. */
module SagaSafety {
  import opened Integers
  import opened Wrappers
  import opened SagaTables
  import opened SagaSteps
  import opened SagaProtocol

  datatype Saga = Saga(input: SagaInput, failAt: Option<StepName>, phase: Phase)

  datatype System = System(tables: Tables, sagas: map<nat, Saga>)

  /** Saga `id` performs its next database action. A crashed saga is one that is never picked again. */
  function Act(s: System, id: nat): (t: System)
    ensures t.sagas.Keys == s.sagas.Keys
  {
    if id in s.sagas then
      var g := s.sagas[id];
      var next := Step(g.phase, s.tables, g.input, g.failAt);
      System(next.tables, s.sagas[id := g.(phase := next.phase)])
    else s
  }

  /** The state after the actions of `schedule`; every interleaving is some schedule. */
  function Run(s: System, schedule: seq<nat>): (t: System)
    ensures t.sagas.Keys == s.sagas.Keys
  {
    if schedule == [] then s
    else Act(Run(s, schedule[..|schedule| - 1]), schedule[|schedule| - 1])
  }

  /** Any well-formed tables, and any sagas that have not begun. */
  ghost predicate Initial(s: System) {
    && WellFormed(s.tables.core)
    && (forall id :: id in s.sagas ==> s.sagas[id].phase == Starting || s.sagas[id].phase == Orchestrating(Unstarted))
  }

  // ---- What the tables hold about one order ----

  ghost predicate SameReservations(c: Core, d: Core, order: nat) {
    forall r ::
      || (r in c.reservations && c.reservations[r].orderId == order)
      || (r in d.reservations && d.reservations[r].orderId == order) ==>
        r in c.reservations && r in d.reservations && c.reservations[r] == d.reservations[r]
  }

  ghost predicate SamePayments(c: Core, d: Core, order: nat) {
    forall p ::
      || (p in c.payments && c.payments[p].orderId == order)
      || (p in d.payments && d.payments[p].orderId == order) ==>
        p in c.payments && p in d.payments && c.payments[p] == d.payments[p]
  }

  ghost predicate SameShipments(c: Core, d: Core, order: nat) {
    forall s ::
      || (s in c.shipments && c.shipments[s].orderId == order)
      || (s in d.shipments && d.shipments[s].orderId == order) ==>
        s in c.shipments && s in d.shipments && c.shipments[s] == d.shipments[s]
  }

  ghost predicate SameOrder(c: Core, d: Core, order: nat) {
    (order in c.orders <==> order in d.orders) && (order in c.orders ==> c.orders[order] == d.orders[order])
  }

  /** No row that belongs to `order` differs between `c` and `d`. */
  ghost predicate SameRows(c: Core, d: Core, order: nat) {
    SameOrder(c, d, order) && SameReservations(c, d, order) && SamePayments(c, d, order) && SameShipments(c, d, order)
  }

  predicate OrderHasStatus(c: Core, order: nat, status: OrderStatus) {
    order in c.orders && c.orders[order].status == status
  }

  ghost predicate NoReservation(c: Core, order: nat) {
    forall r :: r in c.reservations ==> c.reservations[r].orderId != order
  }

  ghost predicate NoPayment(c: Core, order: nat) {
    forall p :: p in c.payments ==> c.payments[p].orderId != order
  }

  ghost predicate NoShipment(c: Core, order: nat) {
    forall s :: s in c.shipments ==> c.shipments[s].orderId != order
  }

  ghost predicate OnlyReservation(c: Core, order: nat, r: nat) {
    && r in c.reservations && c.reservations[r].orderId == order && c.reservations[r].status == Reserved
    && forall q :: q in c.reservations && c.reservations[q].orderId == order ==> q == r
  }

  ghost predicate OnlyPayment(c: Core, order: nat, p: nat) {
    && p in c.payments && c.payments[p].orderId == order && c.payments[p].status == Captured
    && forall q :: q in c.payments && c.payments[q].orderId == order ==> q == p
  }

  ghost predicate OnlyShipment(c: Core, order: nat, s: nat) {
    && s in c.shipments && c.shipments[s].orderId == order
    && forall q :: q in c.shipments && c.shipments[q].orderId == order ==> q == s
  }

  ghost predicate Holds(c: Core, order: nat, ref: ReservationRef) {
    && OnlyReservation(c, order, ref.reservationId)
    && c.reservations[ref.reservationId].itemId == ref.itemId
    && c.reservations[ref.reservationId].quantity == ref.quantity
  }

  /** No reservation of the order is still 'reserved'. */
  ghost predicate NothingReserved(c: Core, order: nat) {
    forall r :: r in c.reservations && c.reservations[r].orderId == order ==> c.reservations[r].status == Released
  }

  ghost predicate NothingCaptured(c: Core, order: nat) {
    forall p :: p in c.payments && c.payments[p].orderId == order ==> c.payments[p].status == Refunded
  }

  /** Exactly one reservation, still 'reserved', and exactly one payment, 'captured'. */
  ghost predicate HeldAndPaid(c: Core, order: nat) {
    (exists r :: OnlyReservation(c, order, r)) && (exists p :: OnlyPayment(c, order, p))
  }

  ghost predicate Shipped(c: Core, order: nat) {
    exists s :: OnlyShipment(c, order, s)
  }

  /** What a saga at `stage` can rely on about its own order's rows. */
  ghost predicate Owned(stage: Stage, c: Core) {
    match stage
    case Unstarted => true
    case AbortedStage => true
    case ToReserve(o) => OrderHasStatus(c, o, Pending) && NoReservation(c, o) && NoPayment(c, o) && NoShipment(c, o)
    case ToCapture(o, r) => OrderHasStatus(c, o, Pending) && Holds(c, o, r) && NoPayment(c, o) && NoShipment(c, o)
    case ToShip(o, r, p) => OrderHasStatus(c, o, Pending) && Holds(c, o, r) && OnlyPayment(c, o, p) && NoShipment(c, o)
    case ToRefund(o, r, p) =>
      OrderHasStatus(c, o, Pending) && Holds(c, o, r) && OnlyPayment(c, o, p) && NoShipment(c, o)
    case ToRelease(o, r) => OrderHasStatus(c, o, Pending) && Holds(c, o, r) && NothingCaptured(c, o) && NoShipment(c, o)
    case ToCancel(o) =>
      OrderHasStatus(c, o, Pending) && NothingReserved(c, o) && NothingCaptured(c, o) && NoShipment(c, o)
    case ToComplete(o) => OrderHasStatus(c, o, Pending) && HeldAndPaid(c, o) && Shipped(c, o)
    case CompletedStage(o) => OrderHasStatus(c, o, Completed) && HeldAndPaid(c, o) && Shipped(c, o)
    case CancelledStage(o) =>
      OrderHasStatus(c, o, Cancelled) && NothingReserved(c, o) && NothingCaptured(c, o) && NoShipment(c, o)
  }

  /** A stage's claim depends on its own order's rows alone. */
  lemma OwnedFrame(stage: Stage, c: Core, d: Core)
    requires Owned(stage, c)
    requires stage.HasOrder() ==> SameRows(c, d, stage.order)
    ensures Owned(stage, d)
  {
    match stage
    case ToComplete(o) => WitnessFrame(c, d, o);
    case CompletedStage(o) => WitnessFrame(c, d, o);
    case _ =>
  }

  lemma WitnessFrame(c: Core, d: Core, o: nat)
    requires SameReservations(c, d, o) && SamePayments(c, d, o) && SameShipments(c, d, o)
    requires HeldAndPaid(c, o) && Shipped(c, o)
    ensures HeldAndPaid(d, o) && Shipped(d, o)
  {
    var r: nat :| OnlyReservation(c, o, r);
    var p: nat :| OnlyPayment(c, o, p);
    var s: nat :| OnlyShipment(c, o, s);
    assert OnlyReservation(d, o, r) && OnlyPayment(d, o, p) && OnlyShipment(d, o, s);
  }

  // ---- One move ----

  ghost predicate StockKept(c: Core, d: Core) {
    d.items.Keys == c.items.Keys && forall i :: i in c.items ==> TotalStock(d, i) == TotalStock(c, i)
  }

  ghost predicate Grown(c: Core, d: Core) {
    && c.nextOrder <= d.nextOrder && c.nextReservation <= d.nextReservation
    && c.nextPayment <= d.nextPayment && c.nextShipment <= d.nextShipment
    && (forall r :: r in d.reservations && r !in c.reservations ==> c.nextReservation <= r)
  }

  ghost predicate Keeps(c: Core, d: Core) {
    WellFormed(d) && StockKept(c, d) && Grown(c, d)
  }

  ghost predicate OthersKept(c: Core, d: Core, order: nat) {
    forall o :: o != order ==> SameRows(c, d, o)
  }

  /** What one business step of one saga does to the tables and to everybody's rows. */
  ghost predicate GoodMove(stage: Stage, c: Core, next: Stage, d: Core) {
    && Keeps(c, d) && Owned(next, d)
    && (if stage.HasOrder() then
          && next.HasOrder() && next.order == stage.order && d.orders.Keys == c.orders.Keys
          && OthersKept(c, d, stage.order)
        else if next.HasOrder() then
          && next.order == c.nextOrder < d.nextOrder && d.orders.Keys == c.orders.Keys + {c.nextOrder}
          && OthersKept(c, d, next.order)
        else d.orders == c.orders && forall o :: SameRows(c, d, o))
  }

  /** The stock column has room for what a release gives back. */
  predicate HasRoom(c: Core, ref: ReservationRef) {
    ref.itemId in c.items && c.items[ref.itemId].available + ref.quantity <= INT4_MAX
  }

  ghost predicate Ready(stage: Stage, c: Core) {
    WellFormed(c) && Owned(stage, c) && (stage.ToRelease? ==> HasRoom(c, stage.reservation))
  }

  lemma SameStock(c: Core, d: Core)
    requires c.items == d.items && c.reservations == d.reservations && c.nextReservation <= d.nextReservation
      && WellFormed(c)
    ensures StockKept(c, d)
  {
    forall i | i in c.items ensures TotalStock(c, i) == TotalStock(d, i) {
      HeldBelowUnused(c.reservations, c.nextReservation, d.nextReservation, i);
    }
  }

  lemma {:induction false} HeldBelowUnused(reservations: map<nat, Reservation>, m: nat, n: nat, item: nat)
    requires m <= n && forall r :: r in reservations ==> r < m
    ensures HeldBelow(reservations, n, item) == HeldBelow(reservations, m, item)
  {
    if m < n {
      HeldBelowUnused(reservations, m, n - 1, item);
    }
  }

  lemma CreateKeeps(c: Core, input: SagaInput, fail: bool)
    requires WellFormed(c)
    ensures Keeps(c, CreateOrderEffect(c, input, fail).core)
  {
    SameStock(c, CreateOrderEffect(c, input, fail).core);
    hide StockKept;
  }

  lemma CreateRows(c: Core, input: SagaInput, fail: bool)
    requires WellFormed(c)
    ensures var e := CreateOrderEffect(c, input, fail);
      && (e.result.Err? ==> e.core.orders == c.orders && forall o :: SameRows(c, e.core, o))
      && (e.result.Ok? ==>
            && e.result.value == c.nextOrder < e.core.nextOrder && e.core.orders.Keys == c.orders.Keys + {c.nextOrder}
            && OthersKept(c, e.core, c.nextOrder) && Owned(ToReserve(c.nextOrder), e.core))
  {
  }

  lemma ReserveKeeps(c: Core, o: nat, sku: string, quantity: int, fail: bool)
    requires WellFormed(c) && o in c.orders
    ensures Keeps(c, ReserveInventoryEffect(c, o, sku, quantity, fail).core)
  {
    ReserveKeepsStock(c, o, sku, quantity, fail);
    hide StockKept;
  }

  lemma ReserveKeepsStock(c: Core, o: nat, sku: string, quantity: int, fail: bool)
    requires WellFormed(c)
    ensures StockKept(c, ReserveInventoryEffect(c, o, sku, quantity, fail).core)
  {
    var e := ReserveInventoryEffect(c, o, sku, quantity, fail);
    if e.result.Ok? {
      forall i | i in c.items ensures TotalStock(e.core, i) == TotalStock(c, i) {
        HeldBelowFrame(c.reservations, e.core.reservations, c.nextReservation, i);
      }
    } else {
      SameStock(c, e.core);
    }
  }

  lemma ReserveRows(c: Core, o: nat, sku: string, quantity: int, fail: bool)
    requires WellFormed(c) && Owned(ToReserve(o), c)
    ensures var e := ReserveInventoryEffect(c, o, sku, quantity, fail);
      && e.core.orders == c.orders && OthersKept(c, e.core, o)
      && (if e.result.Ok? then Owned(ToCapture(o, e.result.value), e.core) else Owned(ToCancel(o), e.core))
  {
  }

  lemma CaptureKeeps(c: Core, o: nat, amountCents: int, fail: bool)
    requires WellFormed(c) && o in c.orders
    ensures Keeps(c, CapturePaymentEffect(c, o, amountCents, fail).core)
  {
    var d := CapturePaymentEffect(c, o, amountCents, fail).core;
    SameStock(c, d);
    assert d.payments == c.payments || d.payments == c.payments[c.nextPayment := Payment(o, amountCents, Captured)];
    assert d == c.(payments := d.payments, nextPayment := d.nextPayment);
    hide StockKept, CapturePaymentEffect;
  }

  lemma CaptureRows(c: Core, o: nat, r: ReservationRef, amountCents: int, fail: bool)
    requires WellFormed(c) && Owned(ToCapture(o, r), c)
    ensures var e := CapturePaymentEffect(c, o, amountCents, fail);
      && e.core.orders == c.orders && OthersKept(c, e.core, o)
      && (if e.result.Ok? then Owned(ToShip(o, r, e.result.value), e.core) else Owned(ToRelease(o, r), e.core))
  {
  }

  lemma ShipKeeps(c: Core, o: nat, fail: bool)
    requires WellFormed(c) && o in c.orders
    ensures Keeps(c, CreateShipmentEffect(c, o, fail).core)
  {
    SameStock(c, CreateShipmentEffect(c, o, fail).core);
  }

  lemma ShipRows(c: Core, o: nat, r: ReservationRef, p: nat, fail: bool)
    requires WellFormed(c) && Owned(ToShip(o, r, p), c)
    ensures var e := CreateShipmentEffect(c, o, fail);
      && e.core.orders == c.orders && OthersKept(c, e.core, o)
      && (if e.result.Ok? then Owned(ToComplete(o), e.core) else Owned(ToRefund(o, r, p), e.core))
  {
    var e := CreateShipmentEffect(c, o, fail);
    if e.result.Ok? {
      assert OnlyReservation(e.core, o, r.reservationId) && OnlyPayment(e.core, o, p)
        && OnlyShipment(e.core, o, c.nextShipment);
    }
  }

  lemma StatusGood(c: Core, o: nat, status: OrderStatus)
    requires WellFormed(c) && o in c.orders
    ensures var d := SetOrderStatus(c, o, status);
      && Keeps(c, d) && d.orders.Keys == c.orders.Keys && OthersKept(c, d, o) && d.orders[o].status == status
      && SameReservations(c, d, o) && SamePayments(c, d, o) && SameShipments(c, d, o)
  {
    SameStock(c, SetOrderStatus(c, o, status));
  }

  lemma RefundGood(c: Core, o: nat, r: ReservationRef, p: nat)
    requires WellFormed(c) && Owned(ToRefund(o, r, p), c)
    ensures var e := RefundPaymentEffect(c, p);
      Keeps(c, e.core) && e.core.orders == c.orders && OthersKept(c, e.core, o) && Owned(ToRelease(o, r), e.core)
  {
    SameStock(c, RefundPaymentEffect(c, p).core);
  }

  lemma ReleaseKeeps(c: Core, o: nat, r: ReservationRef)
    requires WellFormed(c) && Holds(c, o, r) && ReleaseInventoryEffect(c, r).result.Ok?
    ensures Keeps(c, ReleaseInventoryEffect(c, r).core)
  {
    var e := ReleaseInventoryEffect(c, r);
    forall i | i in c.items ensures TotalStock(e.core, i) == TotalStock(c, i) {
      HeldBelowRelease(c.reservations, c.nextReservation, i, r.reservationId);
    }
  }

  lemma ReleaseRows(c: Core, o: nat, r: ReservationRef)
    requires Owned(ToRelease(o, r), c) && ReleaseInventoryEffect(c, r).result.Ok?
    ensures var e := ReleaseInventoryEffect(c, r);
      e.core.orders == c.orders && OthersKept(c, e.core, o) && Owned(ToCancel(o), e.core)
  {
  }

  lemma CreateMove(c: Core, input: SagaInput, failAt: Option<StepName>)
    requires Ready(Unstarted, c)
    ensures var m := Move(Unstarted, c, input, failAt); GoodMove(Unstarted, c, m.stage, m.core)
  {
    CreateKeeps(c, input, failAt == Some(CreateOrder));
    CreateRows(c, input, failAt == Some(CreateOrder));
    hide WellFormed, StockKept;
  }

  lemma ReserveMove(c: Core, o: nat, input: SagaInput, failAt: Option<StepName>)
    requires Ready(ToReserve(o), c)
    ensures var m := Move(ToReserve(o), c, input, failAt); GoodMove(ToReserve(o), c, m.stage, m.core)
  {
    ReserveKeeps(c, o, input.sku, input.quantity, failAt == Some(ReserveInventory));
    ReserveRows(c, o, input.sku, input.quantity, failAt == Some(ReserveInventory));
    hide WellFormed, StockKept, SameRows;
  }

  lemma CaptureMove(c: Core, o: nat, r: ReservationRef, input: SagaInput, failAt: Option<StepName>)
    requires Ready(ToCapture(o, r), c)
    ensures var m := Move(ToCapture(o, r), c, input, failAt); GoodMove(ToCapture(o, r), c, m.stage, m.core)
  {
    CaptureKeeps(c, o, input.amountCents, failAt == Some(CapturePayment));
    CaptureRows(c, o, r, input.amountCents, failAt == Some(CapturePayment));
    hide WellFormed, StockKept, SameRows;
  }

  lemma ShipMove(c: Core, o: nat, r: ReservationRef, p: nat, input: SagaInput, failAt: Option<StepName>)
    requires Ready(ToShip(o, r, p), c)
    ensures var m := Move(ToShip(o, r, p), c, input, failAt); GoodMove(ToShip(o, r, p), c, m.stage, m.core)
  {
    ShipKeeps(c, o, failAt == Some(CreateShipment));
    ShipRows(c, o, r, p, failAt == Some(CreateShipment));
    hide WellFormed, StockKept, SameRows;
  }

  lemma RefundMove(c: Core, o: nat, r: ReservationRef, p: nat, input: SagaInput, failAt: Option<StepName>)
    requires Ready(ToRefund(o, r, p), c)
    ensures var m := Move(ToRefund(o, r, p), c, input, failAt); GoodMove(ToRefund(o, r, p), c, m.stage, m.core)
  {
    RefundGood(c, o, r, p);
    hide WellFormed, StockKept, SameRows;
  }

  lemma ReleaseMove(c: Core, o: nat, r: ReservationRef, input: SagaInput, failAt: Option<StepName>)
    requires Ready(ToRelease(o, r), c)
    ensures var m := Move(ToRelease(o, r), c, input, failAt); GoodMove(ToRelease(o, r), c, m.stage, m.core)
  {
    ReleaseKeeps(c, o, r);
    ReleaseRows(c, o, r);
    hide WellFormed, StockKept, SameRows;
  }

  lemma CompleteMove(c: Core, o: nat, input: SagaInput, failAt: Option<StepName>)
    requires Ready(ToComplete(o), c)
    ensures var m := Move(ToComplete(o), c, input, failAt); GoodMove(ToComplete(o), c, m.stage, m.core)
  {
    StatusGood(c, o, Completed);
    WitnessFrame(c, SetOrderStatus(c, o, Completed), o);
    hide WellFormed, StockKept, SameRows;
  }

  lemma CancelMove(c: Core, o: nat, input: SagaInput, failAt: Option<StepName>)
    requires Ready(ToCancel(o), c)
    ensures var m := Move(ToCancel(o), c, input, failAt); GoodMove(ToCancel(o), c, m.stage, m.core)
  {
    StatusGood(c, o, Cancelled);
    hide WellFormed, StockKept, SameRows;
  }

  lemma MoveIsGood(stage: Stage, c: Core, input: SagaInput, failAt: Option<StepName>)
    requires Ready(stage, c)
    ensures var m := Move(stage, c, input, failAt); GoodMove(stage, c, m.stage, m.core)
  {
    if !stage.Final() {
      hide *;
      match stage
      case Unstarted => CreateMove(c, input, failAt);
      case ToReserve(o) => ReserveMove(c, o, input, failAt);
      case ToCapture(o, r) => CaptureMove(c, o, r, input, failAt);
      case ToShip(o, r, p) => ShipMove(c, o, r, p, input, failAt);
      case ToRefund(o, r, p) => RefundMove(c, o, r, p, input, failAt);
      case ToRelease(o, r) => ReleaseMove(c, o, r, input, failAt);
      case ToComplete(o) => CompleteMove(c, o, input, failAt);
      case ToCancel(o) => CancelMove(c, o, input, failAt);
      case _ =>
    }
  }

  // ---- All interleavings ----

  function StageAt(s: System, id: nat): Stage
    requires id in s.sagas
  {
    StageOf(s.sagas[id].phase)
  }

  predicate Owns(s: System, id: nat, order: nat) {
    id in s.sagas && StageAt(s, id).HasOrder() && StageAt(s, id).order == order
  }

  /** Every saga is where its own order's rows say it is. */
  ghost predicate SagasOnTrack(s: System) {
    forall id :: id in s.sagas ==> Carries(s.sagas[id].phase, s.sagas[id].input) && Owned(StageAt(s, id), s.tables.core)
  }

  /** Orders created since `c0` belong to exactly one saga each; older orders are never touched. */
  ghost predicate OrdersApart(c0: Core, s: System) {
    && (forall id :: id in s.sagas && StageAt(s, id).HasOrder() ==>
          c0.nextOrder <= StageAt(s, id).order < s.tables.core.nextOrder)
    && (forall i: nat, j: nat, o: nat :: Owns(s, i, o) && Owns(s, j, o) ==> i == j)
    && (forall o :: o in s.tables.core.orders && c0.nextOrder <= o ==> exists id: nat :: Owns(s, id, o))
    && (forall o: nat :: o < c0.nextOrder ==> SameRows(c0, s.tables.core, o))
  }

  ghost predicate Inv(c0: Core, s: System) {
    && WellFormed(s.tables.core) && StockKept(c0, s.tables.core) && c0.nextOrder <= s.tables.core.nextOrder
    && WellFormed(c0) && OldReservations(c0, s.tables.core)
    && SagasOnTrack(s) && OrdersApart(c0, s)
  }

  /** No reservation was added below the ids that `c0` had drawn. */
  ghost predicate OldReservations(c0: Core, c: Core) {
    && c0.nextReservation <= c.nextReservation
    && forall r :: r in c.reservations && r < c0.nextReservation ==> r in c0.reservations
  }

  lemma InitialInv(s: System)
    requires Initial(s)
    ensures Inv(s.tables.core, s)
  {
  }

  lemma OldReservationsKept(c0: Core, s: System)
    requires Inv(c0, s)
    ensures forall r :: r in c0.reservations ==>
      r in s.tables.core.reservations && s.tables.core.reservations[r] == c0.reservations[r]
  {
    forall r | r in c0.reservations
      ensures r in s.tables.core.reservations && s.tables.core.reservations[r] == c0.reservations[r]
    {
      assert SameRows(c0, s.tables.core, c0.reservations[r].orderId);
    }
  }

  /** What was held at the start is held still, by the same reservations. */
  lemma OldHeldKept(c0: Core, s: System, item: nat)
    requires Inv(c0, s)
    ensures var c := s.tables.core; HeldBelow(c.reservations, c0.nextReservation, item) == Held(c0, item)
  {
    var c := s.tables.core;
    OldReservationsKept(c0, s);
    HeldBelowFrame(c.reservations, c0.reservations, c0.nextReservation, item);
  }

  /** A saga releases only what it took out of the stock itself, so what it gives back fits. */
  lemma ReleaseHasRoom(c0: Core, s: System, id: nat)
    requires Inv(c0, s) && id in s.sagas && StageAt(s, id).ToRelease?
    ensures HasRoom(s.tables.core, StageAt(s, id).reservation)
  {
    var c, o, ref := s.tables.core, StageAt(s, id).order, StageAt(s, id).reservation;
    assert Owned(StageAt(s, id), c);
    OldReservationsKept(c0, s);
    OldHeldKept(c0, s, ref.itemId);
    HeldBelowGrows(c.reservations, c0.nextReservation, c.nextReservation, ref.itemId);
    assert TotalStock(c, ref.itemId) == TotalStock(c0, ref.itemId);
  }

  /** The acting saga's effect, in terms of its stage. */
  lemma ActIsGood(c0: Core, s: System, id: nat)
    requires Inv(c0, s) && id in s.sagas
    ensures var t := Act(s, id);
      && id in t.sagas && t.sagas.Keys == s.sagas.Keys
      && (forall j :: j in s.sagas && j != id ==> t.sagas[j] == s.sagas[j])
      && t.sagas[id].input == s.sagas[id].input && Carries(t.sagas[id].phase, t.sagas[id].input)
      && (if LogOnly(s.sagas[id].phase) then StageAt(t, id) == StageAt(s, id) && t.tables.core == s.tables.core
          else GoodMove(StageAt(s, id), s.tables.core, StageAt(t, id), t.tables.core))
  {
    var g := s.sagas[id];
    StepRefinesMove(g.phase, s.tables, g.input, g.failAt);
    if !LogOnly(g.phase) {
      if StageAt(s, id).ToRelease? {
        ReleaseHasRoom(c0, s, id);
      }
      MoveIsGood(StageAt(s, id), s.tables.core, g.input, g.failAt);
    }
  }

  lemma OtherStaysOnTrack(c0: Core, s: System, id: nat, j: nat)
    requires Inv(c0, s) && id in s.sagas && j in s.sagas && j != id
    ensures Owned(StageAt(s, j), Act(s, id).tables.core)
  {
    ActIsGood(c0, s, id);
    var stage, c, d := StageAt(s, j), s.tables.core, Act(s, id).tables.core;
    if stage.HasOrder() {
      assert Owns(s, j, stage.order);
      assert StageAt(s, id).HasOrder() ==> Owns(s, id, StageAt(s, id).order);
      assert SameRows(c, d, stage.order);
    }
    OwnedFrame(stage, c, d);
    hide Act, WellFormed, StockKept, Owned;
  }

  lemma ActKeepsTrack(c0: Core, s: System, id: nat)
    requires Inv(c0, s) && id in s.sagas
    ensures SagasOnTrack(Act(s, id))
  {
    var t := Act(s, id);
    ActIsGood(c0, s, id);
    forall j | j in t.sagas && j != id ensures Owned(StageAt(s, j), t.tables.core) {
      OtherStaysOnTrack(c0, s, id, j);
    }
    hide Owned;
  }

  lemma SameRowsTransitive(c: Core, d: Core, e: Core, o: nat)
    requires SameRows(c, d, o) && SameRows(d, e, o)
    ensures SameRows(c, e, o)
  {
  }

  /** Who owns which order after an action: the same sagas as before, and a saga whose order was just created. */
  lemma ActOwners(c0: Core, s: System, id: nat)
    requires Inv(c0, s) && id in s.sagas
    ensures var t := Act(s, id);
      forall j: nat, o: nat :: Owns(t, j, o)
        <==> Owns(s, j, o) || (j == id && Created(s, id) && o == s.tables.core.nextOrder)
    ensures Created(s, id) ==> Owns(Act(s, id), id, s.tables.core.nextOrder) && !StageAt(s, id).HasOrder()
    ensures var d := Act(s, id).tables.core;
      && d.orders.Keys == s.tables.core.orders.Keys + (if Created(s, id) then {s.tables.core.nextOrder} else {})
      && s.tables.core.nextOrder + (if Created(s, id) then 1 else 0) <= d.nextOrder
  {
    ActIsGood(c0, s, id);
  }

  predicate Created(s: System, id: nat)
    requires id in s.sagas
  {
    var t := Act(s, id);
    id in t.sagas && StageAt(t, id).HasOrder() && !StageAt(s, id).HasOrder()
  }

  lemma ActKeepsOld(c0: Core, s: System, id: nat, o: nat)
    requires Inv(c0, s) && id in s.sagas && o < c0.nextOrder
    ensures SameRows(c0, Act(s, id).tables.core, o)
  {
    ActIsGood(c0, s, id);
    var t := Act(s, id);
    assert SameRows(s.tables.core, t.tables.core, o);
    SameRowsTransitive(c0, s.tables.core, t.tables.core, o);
  }

  lemma ActKeepsApart(c0: Core, s: System, id: nat)
    requires Inv(c0, s) && id in s.sagas
    ensures OrdersApart(c0, Act(s, id))
  {
    var t := Act(s, id);
    ActOwners(c0, s, id);
    forall j | j in t.sagas && StageAt(t, j).HasOrder()
      ensures c0.nextOrder <= StageAt(t, j).order < t.tables.core.nextOrder
    {
      assert Owns(t, j, StageAt(t, j).order);
    }
    forall i: nat, j: nat, o: nat | Owns(t, i, o) && Owns(t, j, o) ensures i == j {
      assert Owns(s, i, o) ==> o < s.tables.core.nextOrder;
      assert Owns(s, j, o) ==> o < s.tables.core.nextOrder;
    }
    forall o | o in t.tables.core.orders && c0.nextOrder <= o ensures exists j: nat :: Owns(t, j, o) {
      if o in s.tables.core.orders {
        var j: nat :| Owns(s, j, o);
        assert Owns(t, j, o);
      } else {
        assert Owns(t, id, o);
      }
    }
    forall o: nat | o < c0.nextOrder ensures SameRows(c0, t.tables.core, o) {
      ActKeepsOld(c0, s, id, o);
    }
  }

  lemma ActKeepsInv(c0: Core, s: System, id: nat)
    requires Inv(c0, s)
    ensures Inv(c0, Act(s, id))
  {
    if id in s.sagas {
      ActIsGood(c0, s, id);
      ActKeepsTrack(c0, s, id);
      ActKeepsApart(c0, s, id);
    }
  }

  lemma {:induction false} RunKeepsInv(s: System, schedule: seq<nat>)
    requires Initial(s)
    ensures Inv(s.tables.core, Run(s, schedule))
  {
    if schedule == [] {
      InitialInv(s);
    } else {
      RunKeepsInv(s, schedule[..|schedule| - 1]);
      ActKeepsInv(s.tables.core, Run(s, schedule[..|schedule| - 1]), schedule[|schedule| - 1]);
    }
  }

  /** Stock conservation: in every interleaving of any number of orchestrated and choreographed sagas,
      available plus reserved equals the initial amount, and available stays between 0 and what it was. */
  lemma StockConservation(s: System, schedule: seq<nat>, item: nat)
    requires Initial(s) && item in s.tables.core.items
    ensures var c := Run(s, schedule).tables.core;
      && item in c.items
      && c.items[item].available + Held(c, item) == TotalStock(s.tables.core, item)
      && 0 <= c.items[item].available <= s.tables.core.items[item].available
  {
    RunKeepsInv(s, schedule);
    var c := Run(s, schedule).tables.core;
    OldHeldKept(s.tables.core, Run(s, schedule), item);
    HeldBelowGrows(c.reservations, s.tables.core.nextReservation, c.nextReservation, item);
  }

  /** The release is not guarded on the reservation's status: that it always meets a reservation still 'reserved',
      and never overflows the stock column, follows from the protocol. */
  lemma ReleaseSucceeds(s: System, schedule: seq<nat>, id: nat)
    requires Initial(s) && id in s.sagas && StageAt(Run(s, schedule), id).ToRelease?
    ensures var e := Run(s, schedule);
      var c, ref := e.tables.core, StageAt(e, id).reservation;
      && ref.reservationId in c.reservations && c.reservations[ref.reservationId].status == Reserved
      && ReleaseInventoryEffect(c, ref).result.Ok?
  {
    var e := Run(s, schedule);
    RunKeepsInv(s, schedule);
    assert Owned(StageAt(e, id), e.tables.core);
    ReleaseHasRoom(s.tables.core, e, id);
  }

  // ---- What a finished saga leaves ----

  function ReservationsOf(c: Core, order: nat, status: ReservationStatus): set<nat> {
    set r | r in c.reservations && c.reservations[r].orderId == order && c.reservations[r].status == status
  }

  function PaymentsOf(c: Core, order: nat, status: PaymentStatus): set<nat> {
    set p | p in c.payments && c.payments[p].orderId == order && c.payments[p].status == status
  }

  function ShipmentsOf(c: Core, order: nat): set<nat> {
    set s | s in c.shipments && c.shipments[s].orderId == order
  }

  /** The order as a finished saga leaves it: completed with exactly one reserved reservation, one
      captured payment and one shipment, or cancelled with none of them. */
  ghost predicate Settled(c: Core, order: nat) {
    && order in c.orders
    && (match c.orders[order].status
        case Completed =>
          && |ReservationsOf(c, order, Reserved)| == 1 && |PaymentsOf(c, order, Captured)| == 1
          && |ShipmentsOf(c, order)| == 1
        case Cancelled =>
          && ReservationsOf(c, order, Reserved) == {} && PaymentsOf(c, order, Captured) == {}
          && ShipmentsOf(c, order) == {}
        case Pending => false)
  }

  lemma FinalStageSettled(stage: Stage, c: Core)
    requires Owned(stage, c) && stage.Final() && stage.HasOrder()
    ensures Settled(c, stage.order)
    ensures c.orders[stage.order].status == if stage.CompletedStage? then Completed else Cancelled
  {
    if stage.CompletedStage? {
      var o := stage.order;
      var r: nat :| OnlyReservation(c, o, r);
      var p: nat :| OnlyPayment(c, o, p);
      var s: nat :| OnlyShipment(c, o, s);
      assert ReservationsOf(c, o, Reserved) == {r};
      assert PaymentsOf(c, o, Captured) == {p};
      assert ShipmentsOf(c, o) == {s};
    }
  }

  /** In every interleaving a finished saga has settled its order, which no other saga shares, or it was
      aborted; and every order row that appeared belongs to a saga, so an aborted one left none. */
  lemma FinishedSagasSettled(s: System, schedule: seq<nat>, id: nat)
    requires Initial(s) && id in s.sagas && Run(s, schedule).sagas[id].phase.Finished()
    ensures var e := Run(s, schedule);
      && StageAt(e, id).Final()
      && (StageAt(e, id).HasOrder() ==>
            && Settled(e.tables.core, StageAt(e, id).order)
            && (e.tables.core.orders[StageAt(e, id).order].status == Completed <==> StageAt(e, id).CompletedStage?))
      && (forall o :: o in e.tables.core.orders && o !in s.tables.core.orders ==>
            exists j: nat :: Owns(e, j, o) && forall k: nat :: Owns(e, k, o) ==> k == j)
      && (StageAt(e, id).AbortedStage? ==> forall o: nat :: !Owns(e, id, o))
  {
    var e := Run(s, schedule);
    RunKeepsInv(s, schedule);
    assert Carries(e.sagas[id].phase, e.sagas[id].input);
    if StageAt(e, id).HasOrder() {
      FinalStageSettled(StageAt(e, id), e.tables.core);
    }
    forall o | o in e.tables.core.orders && o !in s.tables.core.orders
      ensures exists j: nat :: Owns(e, j, o) && forall k: nat :: Owns(e, k, o) ==> k == j
    {
      assert o < s.tables.core.nextOrder ==> SameRows(s.tables.core, e.tables.core, o);
      var j :| Owns(e, j, o);
    }
  }

  function Turns(schedule: seq<nat>, id: nat): nat {
    if schedule == [] then 0
    else Turns(schedule[..|schedule| - 1], id) + if schedule[|schedule| - 1] == id then 1 else 0
  }

  /** No saga can go on forever: whatever the others do, it has finished after as many turns as its rank. */
  lemma {:induction false} SagaFinishes(s: System, schedule: seq<nat>, id: nat)
    requires id in s.sagas
    ensures var phase := Run(s, schedule).sagas[id].phase;
      phase.Finished() || phase.Rank() + Turns(schedule, id) <= s.sagas[id].phase.Rank()
    ensures Turns(schedule, id) >= s.sagas[id].phase.Rank() ==> Run(s, schedule).sagas[id].phase.Finished()
  {
    if schedule != [] {
      SagaFinishes(s, schedule[..|schedule| - 1], id);
      var g := Run(s, schedule[..|schedule| - 1]).sagas[id];
      if !g.phase.Finished() {
        StepLowersRank(g.phase, Run(s, schedule[..|schedule| - 1]).tables, g.input, g.failAt);
      }
    }
  }
}
