/** Interleaved sagas of either style against the same sagas all orchestrated. */
module SagaInterleaving {
  import opened Wrappers
  import opened SagaTables
  import opened SagaProtocol
  import opened SagaSafety

  /** The same sagas, none of them begun, each run by the orchestrator. */
  function Orchestrated(s: System): System {
    System(s.tables, map id | id in s.sagas :: s.sagas[id].(phase := Orchestrating(Unstarted)))
  }

  /** Equal business tables, and every saga at the stage at which the orchestrator is about to go on in `o`. */
  ghost predicate SameProgress(s: System, o: System) {
    && o.tables.core == s.tables.core && o.sagas.Keys == s.sagas.Keys
    && forall id :: id in s.sagas ==>
      && Carries(s.sagas[id].phase, s.sagas[id].input)
      && o.sagas[id] == s.sagas[id].(phase := Orchestrating(StageAt(s, id)))
  }

  lemma OrchestratorStays(stage: Stage, t: Tables, input: SagaInput, failAt: Option<StepName>)
    ensures var next := OrchestratorStep(stage, t, input, failAt);
      || next.phase == Orchestrating(StageOf(next.phase))
      || (next.phase.LoggingFailure? && next.phase.next == Orchestrating(StageOf(next.phase)))
  {
  }

  /** The orchestrator's turns for its next business step: a failed step logs its failure in a second one. */
  lemma StepInOrchestration(o: System, id: nat) returns (turns: seq<nat>)
    requires id in o.sagas && o.sagas[id].phase.Orchestrating?
    ensures var g, end := o.sagas[id], Run(o, turns);
      var m := Move(g.phase.stage, o.tables.core, g.input, g.failAt);
      end.tables.core == m.core && end.sagas == o.sagas[id := g.(phase := Orchestrating(m.stage))]
  {
    var g := o.sagas[id];
    var next := OrchestratorStep(g.phase.stage, o.tables, g.input, g.failAt);
    OrchestratorIgnoresLog(g.phase.stage, o.tables, g.input, g.failAt);
    OrchestratorStays(g.phase.stage, o.tables, g.input, g.failAt);
    hide OrchestratorStep, Move;
    assert Run(o, []) == o && [id][..0] == [];
    assert Run(o, [id]) == Act(o, id);
    turns := [id];
    if next.phase.LoggingFailure? {
      turns := [id, id];
      assert [id, id][..1] == [id];
      assert Run(o, [id, id]) == Act(Act(o, id), id);
    }
  }

  lemma {:induction false} RunConcat(s: System, a: seq<nat>, b: seq<nat>)
    ensures Run(s, a + b) == Run(Run(s, a), b)
  {
    if b == [] {
      assert a + b == a;
    } else {
      RunConcat(s, a, b[..|b| - 1]);
      assert (a + b)[..|a + b| - 1] == a + b[..|b| - 1];
    }
  }

  lemma ActKeepsProgress(s: System, o: System, id: nat) returns (turns: seq<nat>)
    requires SameProgress(s, o)
    ensures SameProgress(Act(s, id), Run(o, turns))
  {
    turns := [];
    if id in s.sagas {
      var g := s.sagas[id];
      StepRefinesMove(g.phase, s.tables, g.input, g.failAt);
      if !LogOnly(g.phase) {
        turns := StepInOrchestration(o, id);
      }
      hide Step, Move, Carries;
    }
  }

  /** Whatever the interleaving of any number of sagas of either style, the same sagas all orchestrated have an
      interleaving that reaches the same orders, items, reservations, payments and shipments, with every saga as
      far as it was. */
  lemma {:induction false} InterleavingsMatch(s: System, schedule: seq<nat>)
    requires forall id :: id in s.sagas ==>
      s.sagas[id].phase == Starting || s.sagas[id].phase == Orchestrating(Unstarted)
    ensures exists turns: seq<nat> :: SameProgress(Run(s, schedule), Run(Orchestrated(s), turns))
  {
    if schedule == [] {
      assert SameProgress(s, Run(Orchestrated(s), []));
    } else {
      var prefix, id := schedule[..|schedule| - 1], schedule[|schedule| - 1];
      InterleavingsMatch(s, prefix);
      var turns: seq<nat> :| SameProgress(Run(s, prefix), Run(Orchestrated(s), turns));
      var more := ActKeepsProgress(Run(s, prefix), Run(Orchestrated(s), turns), id);
      RunConcat(Orchestrated(s), turns, more);
      assert SameProgress(Run(s, schedule), Run(Orchestrated(s), turns + more)) by {
        hide Act, SameProgress, Orchestrated;
      }
    }
  }
}
