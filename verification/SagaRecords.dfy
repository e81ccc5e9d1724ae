/** Whose data an order's rows carry, in every interleaving of sagas of both styles. */
module SagaRecords {
  import opened Wrappers
  import opened SagaTables
  import opened SagaSteps
  import opened SagaProtocol
  import opened SagaSafety

  /** The order row has the input's customer and amount; its payments, captured or refunded, have that amount; its
      reservations have the input's quantity, of the item with the input's SKU. */
  ghost predicate Recorded(c: Core, o: nat, input: SagaInput) {
    && o in c.orders && c.orders[o].customerName == input.customerName && c.orders[o].amountCents == input.amountCents
    && (forall p :: p in c.payments && c.payments[p].orderId == o ==> c.payments[p].amountCents == input.amountCents)
    && (forall r :: r in c.reservations && c.reservations[r].orderId == o ==>
          && c.reservations[r].quantity == input.quantity && c.reservations[r].itemId in c.items
          && c.items[c.reservations[r].itemId].sku == input.sku)
  }

  /** The row of a step that succeeded, as the input of the order's saga has it. */
  predicate Told(row: LogRow, o: nat, input: SagaInput, mechanism: Mechanism) {
    && row.name.StepLabel? && row.orderId == Some(o) && row.mechanism == mechanism
    && match row.name.step
       case CreateOrder => row.detail == OrderDetail(input.customerName, input.amountCents)
       case ReserveInventory => row.detail == SkuDetail(input.sku, input.quantity)
       case CapturePayment => row.detail == AmountDetail(input.amountCents)
       case _ => true
  }

  function MechanismOf(phase: Phase): Mechanism {
    match phase
    case Orchestrating(_) => Orchestration
    case LoggingFailure(_, next) => MechanismOf(next)
    case _ => Choreography
  }

  // ---- One move ----

  ghost predicate SameSkus(c: Core, d: Core) {
    && d.skuIndex == c.skuIndex && d.items.Keys == c.items.Keys
    && forall i :: i in c.items ==> d.items[i].sku == c.items[i].sku
  }

  lemma MoveKeepsSkus(stage: Stage, c: Core, input: SagaInput, failAt: Option<StepName>)
    ensures SameSkus(c, Move(stage, c, input, failAt).core)
  {
  }

  lemma CreateRecords(c: Core, input: SagaInput, fail: bool)
    requires WellFormed(c)
    ensures var e := CreateOrderEffect(c, input, fail); e.result.Ok? ==> Recorded(e.core, e.result.value, input)
  {
  }

  lemma ReserveRecords(c: Core, o: nat, input: SagaInput, fail: bool)
    requires WellFormed(c) && SkusIndexed(c) && Recorded(c, o, input)
    ensures Recorded(ReserveInventoryEffect(c, o, input.sku, input.quantity, fail).core, o, input)
  {
  }

  lemma CaptureRecords(c: Core, o: nat, input: SagaInput, fail: bool)
    requires WellFormed(c) && Recorded(c, o, input)
    ensures Recorded(CapturePaymentEffect(c, o, input.amountCents, fail).core, o, input)
  {
  }

  lemma ShipmentAndStatusRecord(c: Core, o: nat, input: SagaInput, fail: bool, status: OrderStatus)
    requires Recorded(c, o, input)
    ensures Recorded(CreateShipmentEffect(c, o, fail).core, o, input)
    ensures Recorded(SetOrderStatus(c, o, status), o, input)
  {
  }

  lemma RefundRecords(c: Core, o: nat, input: SagaInput, p: nat)
    requires Recorded(c, o, input)
    ensures Recorded(RefundPaymentEffect(c, p).core, o, input)
  {
  }

  lemma ReleaseRecords(c: Core, o: nat, input: SagaInput, ref: ReservationRef)
    requires Recorded(c, o, input)
    ensures Recorded(ReleaseInventoryEffect(c, ref).core, o, input)
  {
  }

  lemma MoveRecords(stage: Stage, c: Core, input: SagaInput, failAt: Option<StepName>)
    requires WellFormed(c) && SkusIndexed(c)
    requires stage.HasOrder() ==> Recorded(c, stage.order, input)
    ensures var m := Move(stage, c, input, failAt); m.stage.HasOrder() ==> Recorded(m.core, m.stage.order, input)
  {
    hide Recorded, WellFormed, SkusIndexed, CreateOrderEffect, ReserveInventoryEffect, CapturePaymentEffect,
      CreateShipmentEffect, ReleaseInventoryEffect, RefundPaymentEffect, SetOrderStatus;
    match stage
    case Unstarted => CreateRecords(c, input, failAt == Some(CreateOrder));
    case ToReserve(o) => ReserveRecords(c, o, input, failAt == Some(ReserveInventory));
    case ToCapture(o, _) => CaptureRecords(c, o, input, failAt == Some(CapturePayment));
    case ToShip(o, _, _) => ShipmentAndStatusRecord(c, o, input, failAt == Some(CreateShipment), Pending);
    case ToComplete(o) => ShipmentAndStatusRecord(c, o, input, false, Completed);
    case ToRefund(o, _, p) => RefundRecords(c, o, input, p);
    case ToRelease(o, r) => ReleaseRecords(c, o, input, r);
    case ToCancel(o) => ShipmentAndStatusRecord(c, o, input, false, Cancelled);
    case _ =>
  }

  lemma RecordedFrame(c: Core, d: Core, o: nat, input: SagaInput)
    requires SameRows(c, d, o) && SameSkus(c, d) && Recorded(c, o, input)
    ensures Recorded(d, o, input)
  {
  }

  // ---- One action's row ----

  ghost predicate LogsTruthfully(phase: Phase, t: Tables, input: SagaInput, next: Config) {
    && MechanismOf(next.phase) == MechanismOf(phase) && PendingFailed(next.phase)
    && (|| next.tables.log == t.log
        || (&& |next.tables.log| == |t.log| + 1
            && var row := next.tables.log[|t.log|];
              && next.tables.log == t.log + [row]
              && (row.outcome == Success ==>
                    && StageOf(next.phase).HasOrder()
                    && Told(row, StageOf(next.phase).order, input, MechanismOf(phase)))))
  }

  predicate PendingFailed(phase: Phase) {
    phase.LoggingFailure? ==> phase.row.outcome == Failure && !phase.next.LoggingFailure?
  }

  lemma StepLogsTruthfully(phase: Phase, t: Tables, input: SagaInput, failAt: Option<StepName>)
    requires Carries(phase, input) && PendingFailed(phase)
    ensures LogsTruthfully(phase, t, input, Step(phase, t, input, failAt))
  {
    match phase
    case Handling(e) =>
      if InForwardChain(e.Name()) {
        ForwardLogsTruthfully(e, t, input, failAt);
      } else {
        CompensationLogsTruthfully(e, t, input, failAt);
      }
    case Orchestrating(s) => OrchestratorLogsTruthfully(s, t, input, failAt);
    case _ =>
  }

  lemma OrchestratorLogsTruthfully(stage: Stage, t: Tables, input: SagaInput, failAt: Option<StepName>)
    ensures LogsTruthfully(Orchestrating(stage), t, input, OrchestratorStep(stage, t, input, failAt))
  {
    hide CreateOrderEffect, ReserveInventoryEffect, CapturePaymentEffect, CreateShipmentEffect, ReleaseInventoryEffect,
      RefundPaymentEffect, SetOrderStatus;
    var next := OrchestratorStep(stage, t, input, failAt);
    var log := next.tables.log;
    assert MechanismOf(next.phase) == Orchestration;
    assert log != t.log ==> log == t.log + [log[|t.log|]] && StageOf(next.phase).HasOrder();
  }

  lemma ForwardLogsTruthfully(event: Event, t: Tables, input: SagaInput, failAt: Option<StepName>)
    requires EventCarries(event, input) && InForwardChain(event.Name())
    ensures LogsTruthfully(Handling(event), t, input, HandlerStep(event, t, failAt))
  {
    hide ReserveInventoryEffect, CapturePaymentEffect, CreateShipmentEffect, SetOrderStatus;
    var next := HandlerStep(event, t, failAt);
    var log := next.tables.log;
    assert MechanismOf(next.phase) == Choreography;
    assert log != t.log ==> log == t.log + [log[|t.log|]] && StageOf(next.phase).HasOrder();
  }

  lemma CompensationLogsTruthfully(event: Event, t: Tables, input: SagaInput, failAt: Option<StepName>)
    requires !InForwardChain(event.Name())
    ensures LogsTruthfully(Handling(event), t, input, HandlerStep(event, t, failAt))
  {
    hide ReleaseInventoryEffect, RefundPaymentEffect, SetOrderStatus;
    var next := HandlerStep(event, t, failAt);
    var log := next.tables.log;
    assert MechanismOf(next.phase) == Choreography;
    assert log != t.log ==> log == t.log + [log[|t.log|]] && StageOf(next.phase).HasOrder();
  }

  // ---- All interleavings ----

  /** A row logged since the start belongs to the saga of its order and tells that saga's input. */
  ghost predicate TruthfulRow(s: System, row: LogRow) {
    row.outcome == Success ==>
      exists id: nat, o: nat ::
        Owns(s, id, o) && Told(row, o, s.sagas[id].input, MechanismOf(s.sagas[id].phase))
  }

  ghost predicate AllRecorded(s: System) {
    forall id: nat, o: nat :: Owns(s, id, o) ==> Recorded(s.tables.core, o, s.sagas[id].input)
  }

  ghost predicate InputsKept(s0: System, s: System) {
    && s.sagas.Keys == s0.sagas.Keys
    && forall id :: id in s0.sagas ==>
      && s.sagas[id].input == s0.sagas[id].input && s.sagas[id].failAt == s0.sagas[id].failAt
      && MechanismOf(s.sagas[id].phase) == MechanismOf(s0.sagas[id].phase)
  }

  ghost predicate Records(s0: System, s: System) {
    && SameSkus(s0.tables.core, s.tables.core) && InputsKept(s0, s) && AllRecorded(s)
    && (forall id :: id in s.sagas ==> PendingFailed(s.sagas[id].phase))
    && s0.tables.log <= s.tables.log && TruthfulSince(|s0.tables.log|, s)
  }

  lemma ActKeepsRecorded(c0: Core, s: System, id: nat)
    requires Inv(c0, s) && id in s.sagas && SkusIndexed(s.tables.core) && AllRecorded(s)
    ensures SameSkus(s.tables.core, Act(s, id).tables.core) && AllRecorded(Act(s, id))
  {
    var g, t := s.sagas[id], Act(s, id);
    var c, d := s.tables.core, t.tables.core;
    ActIsGood(c0, s, id);
    ActOwners(c0, s, id);
    StepRefinesMove(g.phase, s.tables, g.input, g.failAt);
    MoveKeepsSkus(StageAt(s, id), c, g.input, g.failAt);
    assert StageAt(s, id).HasOrder() ==> Owns(s, id, StageAt(s, id).order);
    MoveRecords(StageAt(s, id), c, g.input, g.failAt);
    forall j: nat, o: nat | Owns(t, j, o) ensures Recorded(d, o, t.sagas[j].input) {
      if j != id {
        assert Owns(s, j, o);
        RecordedByAnother(c0, s, id, j, o);
      }
    }
    hide Recorded, Step, Move;
  }

  lemma RecordedByAnother(c0: Core, s: System, id: nat, j: nat, o: nat)
    requires Inv(c0, s) && id in s.sagas && AllRecorded(s) && Owns(s, j, o) && j != id
    requires SameSkus(s.tables.core, Act(s, id).tables.core)
    ensures Recorded(Act(s, id).tables.core, o, s.sagas[j].input)
  {
    ActIsGood(c0, s, id);
    assert StageAt(s, id).HasOrder() ==> Owns(s, id, StageAt(s, id).order);
    hide Recorded, Act, WellFormed, StockKept, Owned;
    RecordedFrame(s.tables.core, Act(s, id).tables.core, o, s.sagas[j].input);
  }

  lemma TruthfulLater(c0: Core, s: System, id: nat, row: LogRow)
    requires Inv(c0, s) && id in s.sagas && TruthfulRow(s, row) && InputsKept(s, Act(s, id))
    ensures TruthfulRow(Act(s, id), row)
  {
    ActOwners(c0, s, id);
    if row.outcome == Success {
      var j: nat, o: nat :| Owns(s, j, o) && Told(row, o, s.sagas[j].input, MechanismOf(s.sagas[j].phase));
      assert Owns(Act(s, id), j, o);
    }
    hide Act, Owns, Told;
  }

  lemma SkusStayIndexed(c: Core, d: Core)
    requires SkusIndexed(c) && SameSkus(c, d)
    ensures SkusIndexed(d)
  {
  }

  ghost predicate TruthfulSince(n: nat, s: System) {
    n <= |s.tables.log| && forall k :: n <= k < |s.tables.log| ==> TruthfulRow(s, s.tables.log[k])
  }

  lemma ActKeepsTruthful(c0: Core, n: nat, s: System, id: nat)
    requires Inv(c0, s) && id in s.sagas && PendingFailed(s.sagas[id].phase) && TruthfulSince(n, s)
    ensures InputsKept(s, Act(s, id)) && PendingFailed(Act(s, id).sagas[id].phase) && TruthfulSince(n, Act(s, id))
    ensures forall j :: j in s.sagas && j != id ==> Act(s, id).sagas[j] == s.sagas[j]
    ensures s.tables.log <= Act(s, id).tables.log
  {
    var g, t := s.sagas[id], Act(s, id);
    StepLogsTruthfully(g.phase, s.tables, g.input, g.failAt);
    hide Step, TruthfulRow, Inv;
    forall k | n <= k < |t.tables.log| ensures TruthfulRow(t, t.tables.log[k]) {
      if k < |s.tables.log| {
        assert t.tables.log[k] == s.tables.log[k];
        TruthfulLater(c0, s, id, s.tables.log[k]);
      } else {
        LastTruthful(s, id);
      }
    }
  }

  lemma LastTruthful(s: System, id: nat)
    requires id in s.sagas && Carries(s.sagas[id].phase, s.sagas[id].input) && PendingFailed(s.sagas[id].phase)
    requires |Act(s, id).tables.log| == |s.tables.log| + 1
    ensures TruthfulRow(Act(s, id), Act(s, id).tables.log[|s.tables.log|])
  {
    var g, t := s.sagas[id], Act(s, id);
    StepLogsTruthfully(g.phase, s.tables, g.input, g.failAt);
    hide Step, Told;
    var row := t.tables.log[|s.tables.log|];
    if row.outcome == Success {
      assert Owns(t, id, StageAt(t, id).order);
    }
  }

  lemma ActKeepsRecords(s0: System, s: System, id: nat)
    requires Inv(s0.tables.core, s) && SkusIndexed(s0.tables.core) && Records(s0, s)
    ensures Records(s0, Act(s, id))
  {
    if id in s.sagas {
      SkusStayIndexed(s0.tables.core, s.tables.core);
      ActKeepsTruthful(s0.tables.core, |s0.tables.log|, s, id);
      ActKeepsRecorded(s0.tables.core, s, id);
    }
    hide Act, AllRecorded, TruthfulSince, Inv, SkusIndexed;
  }

  lemma {:induction false} RunKeepsRecords(s: System, schedule: seq<nat>)
    requires Initial(s) && SkusIndexed(s.tables.core)
    ensures Records(s, Run(s, schedule))
  {
    if schedule != [] {
      var before := Run(s, schedule[..|schedule| - 1]);
      RunKeepsRecords(s, schedule[..|schedule| - 1]);
      RunKeepsInv(s, schedule[..|schedule| - 1]);
      ActKeepsRecords(s, before, schedule[|schedule| - 1]);
    }
  }

  /** In every interleaving, a saga's order row has the customer and the amount of its own input; each of the order's
      payments, captured or refunded, has the order's amount, and so has the row that says it was captured; each of
      its reservations has the input's quantity, of the item with the input's SKU. */
  lemma OrdersCarryTheirInput(s: System, schedule: seq<nat>, id: nat, o: nat)
    requires Initial(s) && SkusIndexed(s.tables.core) && Owns(Run(s, schedule), id, o)
    ensures var e, input := Run(s, schedule), s.sagas[id].input;
      var c := e.tables.core;
      && o in c.orders && c.orders[o].customerName == input.customerName && c.orders[o].amountCents == input.amountCents
      && (forall p :: p in c.payments && c.payments[p].orderId == o ==> c.payments[p].amountCents == input.amountCents)
      && (forall r :: r in c.reservations && c.reservations[r].orderId == o ==>
            && c.reservations[r].quantity == input.quantity && c.reservations[r].itemId in s.tables.core.items
            && s.tables.core.items[c.reservations[r].itemId].sku == input.sku)
      && (forall k :: |s.tables.log| <= k < |e.tables.log| ==>
            var row := e.tables.log[k];
            row.orderId == Some(o) && row.outcome == Success ==>
              Told(row, o, input, if s.sagas[id].phase.Starting? then Choreography else Orchestration))
  {
    var e := Run(s, schedule);
    RunKeepsInv(s, schedule);
    RunKeepsRecords(s, schedule);
    forall k | |s.tables.log| <= k < |e.tables.log| && e.tables.log[k].orderId == Some(o)
      && e.tables.log[k].outcome == Success
      ensures Told(e.tables.log[k], o, s.sagas[id].input,
                   if s.sagas[id].phase.Starting? then Choreography else Orchestration)
    {
      assert TruthfulRow(e, e.tables.log[k]);
      var j: nat, q: nat :| Owns(e, j, q)
        && Told(e.tables.log[k], q, e.sagas[j].input, MechanismOf(e.sagas[j].phase));
      assert q == o && j == id;
    }
  }
}
