/** Orchestration and choreography, each run alone from the same tables. */
module SagaEquivalence {
  import opened Wrappers
  import opened SagaTables
  import opened SagaSteps
  import opened SagaProtocol

  /** The log with its event rows erased and its mechanism column dropped. */
  function BusinessRows(log: seq<LogRow>): seq<LogRow> {
    if log == [] then [] else
      var last := log[|log| - 1];
      BusinessRows(log[..|log| - 1]) +
      if last.outcome == Success || last.outcome == Failure then [last.(mechanism := Orchestration)] else []
  }

  lemma BusinessRowsAppend(log: seq<LogRow>, row: LogRow)
    ensures BusinessRows(log + [row])
      == BusinessRows(log) +
        if row.outcome == Success || row.outcome == Failure then [row.(mechanism := Orchestration)] else []
  {
    assert (log + [row])[..|log|] == log;
  }

  lemma {:induction false} BusinessRowsConcat(a: seq<LogRow>, b: seq<LogRow>)
    ensures BusinessRows(a + b) == BusinessRows(a) + BusinessRows(b)
  {
    if b == [] {
      assert a + b == a;
    } else {
      BusinessRowsConcat(a, b[..|b| - 1]);
      assert a + b == (a + b[..|b| - 1]) + [b[|b| - 1]];
      BusinessRowsAppend(a + b[..|b| - 1], b[|b| - 1]);
    }
  }

  predicate Choreographed(phase: Phase) {
    !phase.Orchestrating? && !phase.LoggingFailure?
  }

  /** The two runs stand at the same place, with the same tables and the same business rows. */
  predicate Matching(chor: Config, orch: Config, input: SagaInput) {
    && Choreographed(chor.phase) && Carries(chor.phase, input)
    && orch.phase == Orchestrating(StageOf(chor.phase))
    && chor.tables.core == orch.tables.core
    && BusinessRows(chor.tables.log) == BusinessRows(orch.tables.log)
  }

  lemma MatchingAppend(chor: Phase, orch: Phase, core: Core, a: seq<LogRow>, b: seq<LogRow>, row: LogRow,
                       input: SagaInput)
    requires Choreographed(chor) && Carries(chor, input) && orch == Orchestrating(StageOf(chor))
    requires BusinessRows(a) == BusinessRows(b) && row.outcome in {Success, Failure}
    ensures Matching(Config(chor, Tables(core, a + [row])),
                     Config(orch, Tables(core, b + [row.(mechanism := Orchestration)])), input)
  {
    BusinessRowsAppend(a, row);
    BusinessRowsAppend(b, row.(mechanism := Orchestration));
  }

  predicate Business(phase: Phase) {
    phase.Starting? || (phase.Handling? && !phase.event.OrderCancelled?)
  }

  /** A business step: the handler and the orchestrator do the same, and log the same row. */
  lemma HandlerMatches(event: Event, a: Tables, b: Tables, input: SagaInput, failAt: Option<StepName>)
    requires Matching(Config(Handling(event), a), Config(Orchestrating(EventStage(event)), b), input)
    requires !event.OrderCancelled?
    ensures var chor, orch :=
      Settle(HandlerStep(event, a, failAt)),
      Settle(OrchestratorStep(EventStage(event), b, input, failAt));
      && Matching(chor, orch, input)
      && |chor.tables.log| == |a.log| + 1 && |orch.tables.log| == |b.log| + 1
  {
    hide ReserveInventoryEffect, CapturePaymentEffect, CreateShipmentEffect, ReleaseInventoryEffect,
      RefundPaymentEffect, SetOrderStatus;
    var chor, orch :=
      Settle(HandlerStep(event, a, failAt)),
      Settle(OrchestratorStep(EventStage(event), b, input, failAt));
    var row := chor.tables.log[|a.log|];
    assert chor.tables.log == a.log + [row];
    assert orch.tables.log == b.log + [row.(mechanism := Orchestration)];
    HandlerRefinesMove(event, a, input, failAt);
    OrchestratorIgnoresLog(EventStage(event), b, input, failAt);
    MatchingAppend(chor.phase, orch.phase, chor.tables.core, a.log, b.log, row, input);
  }

  lemma StartMatches(a: Tables, b: Tables, input: SagaInput, failAt: Option<StepName>)
    requires Matching(Config(Starting, a), Config(Orchestrating(Unstarted), b), input)
    ensures var chor, orch :=
      Settle(Step(Starting, a, input, failAt)),
      Settle(OrchestratorStep(Unstarted, b, input, failAt));
      && Matching(chor, orch, input)
      && |chor.tables.log| == |a.log| + 1 && |orch.tables.log| == |b.log| + 1
  {
    var chor, orch := Settle(Step(Starting, a, input, failAt)), Settle(OrchestratorStep(Unstarted, b, input, failAt));
    var row := chor.tables.log[|a.log|];
    MatchingAppend(chor.phase, orch.phase, chor.tables.core, a.log, b.log, row, input);
  }

  lemma BusinessStepMatches(chor: Config, orch: Config, input: SagaInput, failAt: Option<StepName>)
    requires Matching(chor, orch, input) && Business(chor.phase)
    ensures var next, other :=
      Settle(Step(chor.phase, chor.tables, input, failAt)),
      Settle(Step(orch.phase, orch.tables, input, failAt));
      && Matching(next, other, input)
      && |next.tables.log| == |chor.tables.log| + 1 && |other.tables.log| == |orch.tables.log| + 1
      && next.phase.Rank() < chor.phase.Rank()
  {
    StepLowersRank(chor.phase, chor.tables, input, failAt);
    if chor.phase.Starting? {
      StartMatches(chor.tables, orch.tables, input, failAt);
    } else {
      HandlerMatches(chor.phase.event, chor.tables, orch.tables, input, failAt);
    }
  }

  /** An event row: the orchestrator stands still and the erased log does not change. */
  lemma EventStepMatches(chor: Config, orch: Config, input: SagaInput, failAt: Option<StepName>)
    requires Matching(chor, orch, input) && !Business(chor.phase) && !chor.phase.Finished()
    ensures var next := Step(chor.phase, chor.tables, input, failAt);
      && Matching(next, orch, input)
      && |next.tables.log| >= |chor.tables.log| + (if chor.phase.Publishing? then 1 else 0)
      && next.phase.Rank() < chor.phase.Rank()
  {
    var next := Step(chor.phase, chor.tables, input, failAt);
    StepRefinesMove(chor.phase, chor.tables, input, failAt);
    StepLowersRank(chor.phase, chor.tables, input, failAt);
    EventRowErased(chor, input, failAt);
    hide Step, BusinessRows, OrchestratorStep;
    assert LogOnly(chor.phase);
  }

  lemma EventRowErased(chor: Config, input: SagaInput, failAt: Option<StepName>)
    requires Choreographed(chor.phase) && !Business(chor.phase) && !chor.phase.Finished()
    ensures var next := Step(chor.phase, chor.tables, input, failAt);
      && Choreographed(next.phase)
      && BusinessRows(next.tables.log) == BusinessRows(chor.tables.log)
      && |next.tables.log| >= |chor.tables.log| + (if chor.phase.Publishing? then 1 else 0)
  {
    hide BusinessRows;
    match chor.phase
    case Publishing(e, publisher, direction) =>
      BusinessRowsAppend(chor.tables.log, PublishedRow(e, publisher, direction));
    case Consuming(e) =>
      if Subscribers(e.Name()) != [] {
        BusinessRowsAppend(chor.tables.log, ConsumedRow(e, Subscribers(e.Name())[0]));
      }
    case Handling(_) =>
  }

  lemma MatchingFinished(chor: Config, orch: Config, input: SagaInput)
    requires Matching(chor, orch, input) && chor.phase.Finished()
    ensures orch.phase.Finished()
  {
  }

  lemma {:induction false} RunsMatch(chor: Config, orch: Config, input: SagaInput, failAt: Option<StepName>)
    requires Matching(chor, orch, input)
    ensures var c, o :=
      RunAlone(chor.phase, chor.tables, input, failAt),
      RunAlone(orch.phase, orch.tables, input, failAt);
      && c.tables.core == o.tables.core && StageOf(c.phase) == StageOf(o.phase)
      && BusinessRows(c.tables.log) == BusinessRows(o.tables.log)
      && |c.tables.log| - |chor.tables.log|
        >= |o.tables.log| - |orch.tables.log| + if chor.phase.Publishing? then 1 else 0
    decreases chor.phase.Rank()
  {
    hide Step, HandlerStep, OrchestratorStep, Settle, BusinessRows;
    if chor.phase.Finished() {
      MatchingFinished(chor, orch, input);
    } else {
      var next := Step(chor.phase, chor.tables, input, failAt);
      RunUnfolds(chor, input, failAt);
      if Business(chor.phase) {
        BusinessStepMatches(chor, orch, input, failAt);
        RunUnfolds(orch, input, failAt);
        RunsMatch(Settle(next), Settle(Step(orch.phase, orch.tables, input, failAt)), input, failAt);
      } else {
        EventStepMatches(chor, orch, input, failAt);
        RunsMatch(next, orch, input, failAt);
      }
    }
  }

  lemma StepExtendsLog(config: Config, input: SagaInput, failAt: Option<StepName>)
    ensures config.tables.log <= Step(config.phase, config.tables, input, failAt).tables.log
  {
    match config.phase
    case Orchestrating(stage) => OrchestratorExtendsLog(stage, config.tables, input, failAt);
    case Handling(event) => HandlerExtendsLog(event, config.tables, failAt);
    case _ =>
  }

  lemma OrchestratorExtendsLog(stage: Stage, t: Tables, input: SagaInput, failAt: Option<StepName>)
    ensures t.log <= OrchestratorStep(stage, t, input, failAt).tables.log
  {
    hide ReserveInventoryEffect, CapturePaymentEffect, CreateShipmentEffect, ReleaseInventoryEffect,
      RefundPaymentEffect, SetOrderStatus;
  }

  lemma HandlerExtendsLog(event: Event, t: Tables, failAt: Option<StepName>)
    ensures t.log <= HandlerStep(event, t, failAt).tables.log
  {
    hide ReserveInventoryEffect, CapturePaymentEffect, CreateShipmentEffect, ReleaseInventoryEffect,
      RefundPaymentEffect, SetOrderStatus;
  }

  lemma {:induction false} RunExtendsLog(config: Config, input: SagaInput, failAt: Option<StepName>)
    ensures config.tables.log <= RunAlone(config.phase, config.tables, input, failAt).tables.log
    decreases config.phase.Rank()
  {
    hide Step, HandlerStep, OrchestratorStep;
    if !config.phase.Finished() {
      StepLowersRank(config.phase, config.tables, input, failAt);
      StepExtendsLog(config, input, failAt);
      RunUnfolds(config, input, failAt);
      RunExtendsLog(Step(config.phase, config.tables, input, failAt), input, failAt);
    }
  }

  function RowsAdded(before: Tables, after: Tables): seq<LogRow>
    requires before.log <= after.log
  {
    after.log[|before.log|..]
  }

  lemma AbortedIffNotCreated(t: Tables, input: SagaInput, failAt: Option<StepName>)
    ensures var orch, created :=
      RunAlone(Orchestrating(Unstarted), t, input, failAt),
      CreateOrderEffect(t.core, input, failAt == Some(CreateOrder));
      && (StageOf(orch.phase).AbortedStage? <==> created.result.Err?)
      && (created.result.Err? ==>
            |orch.tables.log| == |t.log| + 1 && |RunAlone(Starting, t, input, failAt).tables.log| == |t.log| + 1)
  {
    var created := CreateOrderEffect(t.core, input, failAt == Some(CreateOrder));
    var other, next := Step(Orchestrating(Unstarted), t, input, failAt), Step(Starting, t, input, failAt);
    RunSettled(other, input, failAt);
    RunSettled(next, input, failAt);
    if created.result.Ok? {
      OrderStays(other, input, failAt);
    }
  }

  /** A created order's cascade logs more rows than the orchestrator does. */
  lemma CascadeLogsMore(t: Tables, input: SagaInput, failAt: Option<StepName>)
    requires CreateOrderEffect(t.core, input, failAt == Some(CreateOrder)).result.Ok?
    ensures |RunAlone(Starting, t, input, failAt).tables.log|
      > |RunAlone(Orchestrating(Unstarted), t, input, failAt).tables.log|
  {
    var chor, orch := Config(Starting, t), Config(Orchestrating(Unstarted), t);
    var next := Settle(Step(Starting, t, input, failAt));
    assert next.phase.Publishing?;
    hide Step, HandlerStep, OrchestratorStep, Settle, BusinessRows;
    BusinessStepMatches(chor, orch, input, failAt);
    RunUnfolds(chor, input, failAt);
    RunUnfolds(orch, input, failAt);
    RunsMatch(next, Settle(Step(orch.phase, orch.tables, input, failAt)), input, failAt);
  }

  /** From any tables, input and failing step, the event cascade ends with exactly the orchestrator's
      orders, items, reservations, payments and shipments; erasing the event rows it logged leaves the
      orchestrator's rows in order; and it logs strictly more rows unless `createOrder` failed. */
  lemma ChoreographyEqualsOrchestration(t: Tables, input: SagaInput, failAt: Option<StepName>)
    ensures var chor, orch :=
      RunAlone(Starting, t, input, failAt),
      RunAlone(Orchestrating(Unstarted), t, input, failAt);
      && chor.tables.core == orch.tables.core
      && StageOf(chor.phase) == StageOf(orch.phase)
      && t.log <= chor.tables.log && t.log <= orch.tables.log
      && BusinessRows(RowsAdded(t, chor.tables)) == BusinessRows(RowsAdded(t, orch.tables))
      && (if StageOf(orch.phase).AbortedStage? then |chor.tables.log| == |orch.tables.log|
          else |chor.tables.log| > |orch.tables.log|)
  {
    hide RunAlone, BusinessRows;
    var chor0, orch0 := Config(Starting, t), Config(Orchestrating(Unstarted), t);
    var chor, orch := RunAlone(Starting, t, input, failAt), RunAlone(Orchestrating(Unstarted), t, input, failAt);
    RunsMatch(chor0, orch0, input, failAt);
    RunExtendsLog(chor0, input, failAt);
    RunExtendsLog(orch0, input, failAt);
    BusinessRowsConcat(t.log, RowsAdded(t, chor.tables));
    BusinessRowsConcat(t.log, RowsAdded(t, orch.tables));
    assert chor.tables.log == t.log + RowsAdded(t, chor.tables);
    assert orch.tables.log == t.log + RowsAdded(t, orch.tables);
    assert BusinessRows(chor.tables.log)[|BusinessRows(t.log)|..] == BusinessRows(RowsAdded(t, chor.tables));
    assert BusinessRows(orch.tables.log)[|BusinessRows(t.log)|..] == BusinessRows(RowsAdded(t, orch.tables));
    AbortedIffNotCreated(t, input, failAt);
    if CreateOrderEffect(t.core, input, failAt == Some(CreateOrder)).result.Ok? {
      CascadeLogsMore(t, input, failAt);
    }
  }
}
