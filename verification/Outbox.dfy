/** Outbox publishers under leases, a broker that may be called twice, and a deduplicating consumer. */
module Outbox {
  import opened IdLists
  import opened Wrappers

  datatype RowStatus = Pending | Processing | Published | Failed

  datatype Row = Row(createdAt: int, status: RowStatus, attempts: nat, maxAttempts: nat,
                     lockedBy: Option<string>, lockedUntil: Option<int>)

  predicate Claimable(row: Row, now: int) {
    row.status == Pending || (row.status == Processing && row.lockedUntil.Some? && row.lockedUntil.value < now)
  }

  function Claimed(row: Row, worker: string, leaseMs: int, now: int): Row {
    row.(status := Processing, lockedBy := Some(worker), lockedUntil := Some(now + leaseMs),
         attempts := row.attempts + 1)
  }

  /** Both finalising UPDATEs are guarded by `locked_by`. */
  function MarkedPublished(row: Row, worker: string): Row {
    if row.lockedBy == Some(worker) then row.(status := Published, lockedBy := None, lockedUntil := None) else row
  }

  function MarkedFailed(row: Row, worker: string): Row {
    if row.lockedBy == Some(worker)
    then row.(status := if row.attempts >= row.maxAttempts then Failed else Pending,
              lockedBy := None, lockedUntil := None)
    else row
  }

  // ---- Publisher loops ----

  /** Where one `claimAndPublish` loop stands. `claim` is the row's `attempts` as the loop's claim set it. */
  datatype Phase =
    | Idle
    | HasClaim(event: nat, claim: nat)
    | InCall(event: nat, claim: nat)
    | Delivered(event: nat, claim: nat)
    | Rejected(event: nat, claim: nat)
  {
    predicate Holds(e: nat) {
      !Idle? && event == e
    }
  }

  datatype Loop = Loop(workerId: string, phase: Phase)

  /** `calls` counts broker calls per event; `deliveries` are the events the broker received, in order. `processed` is
      the consumer's dedup table and `effects` the side effects it applied, in order. */
  datatype State = State(
    clock: int, rows: map<nat, Row>, loops: seq<Loop>,
    calls: map<nat, nat>, deliveries: seq<nat>,
    processed: set<nat>, effects: seq<nat>, consumed: set<nat>)

  /** One step of one loop, or of the consumer. `Crash` abandons whatever the loop was doing; `LoseConsumer` is the
      consumer dying after its dedup INSERT and before its side effect. */
  datatype Action =
    | ClaimEvent(elapsed: nat, loop: nat, event: nat, leaseMs: int)
    | CallBroker(loop: nat)
    | BrokerReply(loop: nat, ok: bool)
    | Finalise(loop: nat)
    | Crash(loop: nat)
    | Consume(delivery: nat)
    | LoseConsumer(delivery: nat)

  function CallsOf(st: State, event: nat): nat {
    if event in st.calls then st.calls[event] else 0
  }

  predicate Enabled(st: State, a: Action) {
    match a
    case ClaimEvent(elapsed, l, e, _) =>
      l < |st.loops| && st.loops[l].phase == Idle && e in st.rows && Claimable(st.rows[e], st.clock + elapsed)
    case CallBroker(l) => l < |st.loops| && st.loops[l].phase.HasClaim?
    case BrokerReply(l, _) => l < |st.loops| && st.loops[l].phase.InCall?
    case Finalise(l) =>
      && l < |st.loops| && (st.loops[l].phase.Delivered? || st.loops[l].phase.Rejected?)
      && st.loops[l].phase.event in st.rows
    case Crash(l) => l < |st.loops|
    case Consume(d) => d < |st.deliveries|
    case LoseConsumer(d) => d < |st.deliveries|
  }

  function SetPhase(st: State, l: nat, phase: Phase): State
    requires l < |st.loops|
  {
    st.(loops := st.loops[l := st.loops[l].(phase := phase)])
  }

  function Apply(st: State, a: Action): State {
    if !Enabled(st, a) then st
    else match a
      case ClaimEvent(elapsed, l, e, leaseMs) =>
        var now := st.clock + elapsed;
        SetPhase(st.(clock := now, rows := st.rows[e := Claimed(st.rows[e], st.loops[l].workerId, leaseMs, now)]), l,
                 HasClaim(e, st.rows[e].attempts + 1))
      case CallBroker(l) =>
        var p := st.loops[l].phase;
        SetPhase(st.(calls := st.calls[p.event := CallsOf(st, p.event) + 1]), l, InCall(p.event, p.claim))
      case BrokerReply(l, ok) =>
        var p := st.loops[l].phase;
        if ok then SetPhase(st.(deliveries := st.deliveries + [p.event]), l, Delivered(p.event, p.claim))
        else SetPhase(st, l, Rejected(p.event, p.claim))
      case Finalise(l) => SetPhase(st.(rows := Finalised(st, l)), l, Idle)
      case Crash(l) => SetPhase(st, l, Idle)
      case Consume(d) =>
        var e := st.deliveries[d];
        if e in st.processed then st.(consumed := st.consumed + {d})
        else st.(processed := st.processed + {e}, effects := st.effects + [e], consumed := st.consumed + {d})
      case LoseConsumer(d) => st.(processed := st.processed + {st.deliveries[d]}, consumed := st.consumed + {d})
  }

  function Finalised(st: State, l: nat): map<nat, Row>
    requires Enabled(st, Finalise(l))
  {
    var w, p := st.loops[l].workerId, st.loops[l].phase;
    st.rows[p.event := if p.Delivered? then MarkedPublished(st.rows[p.event], w) else MarkedFailed(st.rows[p.event], w)]
  }

  function Run(st: State, actions: seq<Action>): State {
    if actions == [] then st else Apply(Run(st, actions[..|actions| - 1]), actions[|actions| - 1])
  }

  ghost predicate Fresh(st: State) {
    && (forall e :: e in st.rows ==>
          st.rows[e].status == Pending && st.rows[e].attempts == 0 && st.rows[e].lockedBy == None)
    && (forall l :: 0 <= l < |st.loops| ==> st.loops[l].phase == Idle)
    && st.calls == map[] && st.deliveries == [] && st.processed == {} && st.effects == [] && st.consumed == {}
  }

  // ---- Safety of every run ----

  /** Number of loops that have claimed `event` and not yet called the broker. */
  function AboutToCall(loops: seq<Loop>, event: nat): nat {
    if loops == [] then 0 else
      var p := loops[|loops| - 1].phase;
      AboutToCall(loops[..|loops| - 1], event) + if p.HasClaim? && p.event == event then 1 else 0
  }

  /** Number of loops waiting for the broker's reply about `event`. */
  function Waiting(loops: seq<Loop>, event: nat): nat {
    if loops == [] then 0 else
      var p := loops[|loops| - 1].phase;
      Waiting(loops[..|loops| - 1], event) + if p.InCall? && p.event == event then 1 else 0
  }

  ghost predicate LocksMatch(st: State) {
    forall e :: e in st.rows ==> (st.rows[e].lockedBy.Some? <==> st.rows[e].status == Processing)
  }

  ghost predicate PhasesMatch(st: State) {
    forall l :: 0 <= l < |st.loops| && !st.loops[l].phase.Idle? ==>
      && st.loops[l].phase.event in st.rows && st.loops[l].phase.claim <= st.rows[st.loops[l].phase.event].attempts
      && (st.loops[l].phase.Delivered? ==> st.loops[l].phase.event in st.deliveries)
  }

  ghost predicate PublishedDelivered(st: State) {
    forall e :: e in st.rows && st.rows[e].status == Published ==> e in st.deliveries
  }

  ghost predicate CallsBounded(st: State) {
    forall e :: e in st.rows ==> BoundedFor(st, e)
  }

  ghost predicate Inv(st: State) {
    LocksMatch(st) && PhasesMatch(st) && PublishedDelivered(st) && CallsBounded(st)
  }

  predicate TerminalKept(st: State, next: State) {
    forall e :: e in st.rows && (st.rows[e].status == Published || st.rows[e].status == Failed) ==>
      e in next.rows && next.rows[e].status == st.rows[e].status
  }

  /** A loop's change of phase moves it in or out of the two counts. */
  lemma {:induction false} PhaseCounts(loops: seq<Loop>, l: nat, phase: Phase, e: nat)
    requires l < |loops|
    ensures var next, was := loops[l := loops[l].(phase := phase)], loops[l].phase;
      && AboutToCall(next, e) == AboutToCall(loops, e)
        + (if phase.HasClaim? && phase.event == e then 1 else 0) - (if was.HasClaim? && was.event == e then 1 else 0)
      && Waiting(next, e) == Waiting(loops, e)
        + (if phase.InCall? && phase.event == e then 1 else 0) - (if was.InCall? && was.event == e then 1 else 0)
  {
    var n := |loops| - 1;
    var next := loops[l := loops[l].(phase := phase)];
    if l < n {
      PhaseCounts(loops[..n], l, phase, e);
      assert next[..n] == loops[..n][l := loops[l].(phase := phase)];
    } else {
      assert next[..n] == loops[..n];
    }
  }

  /** What an action does to the phase of its loop, and to nobody else's. */
  lemma ApplyPhase(st: State, a: Action)
    requires Enabled(st, a) && !a.Consume? && !a.LoseConsumer?
    ensures var next := Apply(st, a);
      && a.loop < |st.loops| == |next.loops|
      && next.loops == st.loops[a.loop := st.loops[a.loop].(phase := next.loops[a.loop].phase)]
      && next.rows.Keys == st.rows.Keys
  {
  }

  lemma ApplyKeepsCalls(st: State, a: Action)
    requires Inv(st)
    ensures CallsBounded(Apply(st, a))
  {
    if Enabled(st, a) && !a.Consume? && !a.LoseConsumer? {
      var next, l := Apply(st, a), a.loop;
      ApplyPhase(st, a);
      forall e | e in next.rows ensures BoundedFor(next, e) {
        PhaseCounts(st.loops, l, next.loops[l].phase, e);
        ApplyCounts(st, a, e);
        assert BoundedFor(st, e);
        hide Apply;
      }
    }
  }

  ghost predicate BoundedFor(st: State, e: nat) {
    e in st.rows ==>
      && CallsOf(st, e) + AboutToCall(st.loops, e) <= st.rows[e].attempts
      && Occurrences(st.deliveries, e) + Waiting(st.loops, e) <= CallsOf(st, e)
  }

  /** What an action adds to an event's attempts, calls and deliveries. */
  lemma ApplyCounts(st: State, a: Action, e: nat)
    requires Enabled(st, a) && !a.Consume? && !a.LoseConsumer? && e in st.rows
    ensures var next, was := Apply(st, a), st.loops[a.loop].phase;
      && e in next.rows
      && next.rows[e].attempts == st.rows[e].attempts + (if a.ClaimEvent? && a.event == e then 1 else 0)
      && CallsOf(next, e) == CallsOf(st, e) + (if a.CallBroker? && was.event == e then 1 else 0)
      && Occurrences(next.deliveries, e)
         == Occurrences(st.deliveries, e) + (if a.BrokerReply? && a.ok && was.event == e then 1 else 0)
      && next.loops[a.loop].phase ==
        match a
        case ClaimEvent(_, _, event, _) => HasClaim(event, st.rows[event].attempts + 1)
        case CallBroker(_) => InCall(was.event, was.claim)
        case BrokerReply(_, ok) => if ok then Delivered(was.event, was.claim) else Rejected(was.event, was.claim)
        case _ => Idle
  {
    if a.BrokerReply? {
      OccurrencesAppend(st.deliveries, st.loops[a.loop].phase.event);
    }
  }

  lemma ApplyKeepsRest(st: State, a: Action)
    requires Inv(st)
    ensures var next := Apply(st, a);
      LocksMatch(next) && PhasesMatch(next) && PublishedDelivered(next) && TerminalKept(st, next)
  {
    ApplyKeepsPhases(st, a);
    ApplyKeepsPublished(st, a);
    hide PhasesMatch, PublishedDelivered;
  }

  lemma ApplyKeepsPublished(st: State, a: Action)
    requires PublishedDelivered(st) && PhasesMatch(st)
    ensures PublishedDelivered(Apply(st, a))
  {
    assert a.Finalise? && Enabled(st, a) && st.loops[a.loop].phase.Delivered? ==>
      st.loops[a.loop].phase.event in st.deliveries;
    hide PhasesMatch;
  }

  lemma ApplyKeepsPhases(st: State, a: Action)
    requires PhasesMatch(st)
    ensures PhasesMatch(Apply(st, a))
  {
  }

  lemma {:induction false} IdleCounts(loops: seq<Loop>, e: nat)
    requires forall l :: 0 <= l < |loops| ==> loops[l].phase == Idle
    ensures AboutToCall(loops, e) == Waiting(loops, e) == 0
  {
    if loops != [] {
      IdleCounts(loops[..|loops| - 1], e);
    }
  }

  lemma {:induction false} RunInv(st: State, actions: seq<Action>)
    requires Fresh(st)
    ensures Inv(Run(st, actions))
  {
    if actions == [] {
      forall e | e in st.rows ensures BoundedFor(st, e) {
        IdleCounts(st.loops, e);
      }
    } else {
      RunInv(st, actions[..|actions| - 1]);
      ApplyKeepsCalls(Run(st, actions[..|actions| - 1]), actions[|actions| - 1]);
      ApplyKeepsRest(Run(st, actions[..|actions| - 1]), actions[|actions| - 1]);
    }
  }

  /** In every run with crashes, lease expiry and stale workers: `locked_by` is set exactly while a row is
      'processing'; a published event was delivered; deliveries <= broker calls <= attempts. */
  lemma RunSafe(st: State, actions: seq<Action>, e: nat)
    requires Fresh(st) && e in Run(st, actions).rows
    ensures var end := Run(st, actions);
      && (end.rows[e].lockedBy.Some? <==> end.rows[e].status == Processing)
      && Occurrences(end.deliveries, e) <= CallsOf(end, e) <= end.rows[e].attempts
      && (end.rows[e].status == Published ==> Occurrences(end.deliveries, e) >= 1)
  {
    RunInv(st, actions);
    assert BoundedFor(Run(st, actions), e);
    OccursIffIn(Run(st, actions).deliveries, e);
  }

  /** 'published' and 'failed' are never left. */
  lemma {:induction false} RunTerminal(st: State, actions: seq<Action>, more: seq<Action>)
    requires Fresh(st)
    ensures TerminalKept(Run(st, actions), Run(st, actions + more))
  {
    if more == [] {
      assert actions + more == actions;
    } else {
      var all := actions + more;
      assert all[..|all| - 1] == actions + more[..|more| - 1];
      RunTerminal(st, actions, more[..|more| - 1]);
      RunInv(st, all[..|all| - 1]);
      var last := Run(st, all[..|all| - 1]);
      ApplyKeepsRest(last, all[|all| - 1]);
      TerminalKeptTwice(Run(st, actions), last, Run(st, all));
    }
  }

  lemma TerminalKeptTwice(a: State, b: State, c: State)
    ensures TerminalKept(a, b) && TerminalKept(b, c) ==> TerminalKept(a, c)
  {
  }

  // ---- Whose finalise counts ----

  /** No two loops share a worker id. */
  ghost predicate DistinctWorkers(loops: seq<Loop>) {
    forall i, j :: 0 <= i < j < |loops| ==> loops[i].workerId != loops[j].workerId
  }

  /** If the row still names a loop's worker, then that loop's own claim is the row's latest. */
  ghost predicate LockIsLatest(st: State) {
    forall l :: 0 <= l < |st.loops| && !st.loops[l].phase.Idle? && st.loops[l].phase.event in st.rows ==>
      st.rows[st.loops[l].phase.event].lockedBy == Some(st.loops[l].workerId) ==>
        st.rows[st.loops[l].phase.event].attempts == st.loops[l].phase.claim
  }

  lemma ApplyKeepsLatest(st: State, a: Action)
    requires DistinctWorkers(st.loops) && LockIsLatest(st)
    ensures DistinctWorkers(Apply(st, a).loops) && LockIsLatest(Apply(st, a))
  {
  }

  lemma {:induction false} RunLatest(st: State, actions: seq<Action>)
    requires Fresh(st) && DistinctWorkers(st.loops)
    ensures DistinctWorkers(Run(st, actions).loops) && LockIsLatest(Run(st, actions))
  {
    if actions != [] {
      RunLatest(st, actions[..|actions| - 1]);
      ApplyKeepsLatest(Run(st, actions[..|actions| - 1]), actions[|actions| - 1]);
    }
  }

  /** With one sequential loop per worker id, a finalise changes the table only if the loop made the row's latest
      claim. */
  lemma FinaliseByLatestClaim(st: State, actions: seq<Action>, l: nat)
    requires Fresh(st) && DistinctWorkers(st.loops) && Enabled(Run(st, actions), Finalise(l))
    ensures var before := Run(st, actions);
      Apply(before, Finalise(l)).rows != before.rows ==>
        before.rows[before.loops[l].phase.event].attempts == before.loops[l].phase.claim
  {
    var before := Run(st, actions);
    RunLatest(st, actions);
    var e := before.loops[l].phase.event;
    if before.rows[e].lockedBy != Some(before.loops[l].workerId) {
      assert Finalised(before, l) == before.rows;
    }
  }

  /** The condition is needed: two loops under one worker id, and the first one's late finalise closes the
      row that the second one has just claimed. */
  lemma SharedWorkerIdFinalisesForOther(st: State, i: nat, j: nat, e: nat, leaseMs: nat, wait: nat)
    requires i < |st.loops| && j < |st.loops| && i != j && st.loops[i].workerId == st.loops[j].workerId
    requires st.loops[i].phase == Idle && st.loops[j].phase == Idle
    requires e in st.rows && st.rows[e].status == Pending && leaseMs < wait
    ensures var delivered := Apply(Apply(Apply(st, ClaimEvent(0, i, e, leaseMs)), CallBroker(i)), BrokerReply(i, true));
      var reclaimed := Apply(delivered, ClaimEvent(wait, j, e, leaseMs));
      var end := Apply(reclaimed, Finalise(i));
      && e in end.rows && end.rows[e].status == Published
      && i < |reclaimed.loops| && reclaimed.loops[i].phase == Delivered(e, st.rows[e].attempts + 1)
      && end.rows[e].attempts == st.rows[e].attempts + 2
  {
  }

  // ---- End to end: at-least-once delivery, effect-once processing ----

  /** The consumer died between inserting the event's dedup row and running its side effect: that takes a
      delivery of this event, and the first one consumed. */
  ghost predicate EffectLost(st: State, actions: seq<Action>, e: nat) {
    actions != [] &&
    var prefix, a := actions[..|actions| - 1], actions[|actions| - 1];
    || EffectLost(st, prefix, e)
    || (a.LoseConsumer? && FirstOf(Run(st, prefix), a.delivery, e))
  }

  /** Delivery `d` is one of event `e`, which has not been consumed before. */
  predicate FirstOf(st: State, d: nat, e: nat) {
    d < |st.deliveries| && st.deliveries[d] == e && e !in st.processed
  }

  /** What an action does to one event's dedup row and effects. */
  lemma ApplyEffects(st: State, a: Action, e: nat)
    ensures var next := Apply(st, a);
      && Occurrences(next.effects, e)
         == Occurrences(st.effects, e) + (if a.Consume? && FirstOf(st, a.delivery, e) then 1 else 0)
      && (e in next.processed <==>
            e in st.processed || ((a.Consume? || a.LoseConsumer?) && FirstOf(st, a.delivery, e)))
  {
    if a.Consume? && Enabled(st, a) {
      OccurrencesAppend(st.effects, st.deliveries[a.delivery]);
    }
  }

  ghost predicate ConsumedProcessed(st: State) {
    forall d :: d in st.consumed ==> d < |st.deliveries| && st.deliveries[d] in st.processed
  }

  lemma ApplyKeepsConsumed(st: State, a: Action)
    requires ConsumedProcessed(st)
    ensures ConsumedProcessed(Apply(st, a))
  {
  }

  /** In every run, an event's side effect ran once if the event was consumed and its effect not lost, and
      otherwise never. */
  lemma {:induction false} RunEffects(st: State, actions: seq<Action>, e: nat)
    requires Fresh(st)
    ensures ConsumedProcessed(Run(st, actions))
    ensures EffectLost(st, actions, e) ==> e in Run(st, actions).processed
    ensures Occurrences(Run(st, actions).effects, e)
      == if e in Run(st, actions).processed && !EffectLost(st, actions, e) then 1 else 0
  {
    if actions != [] {
      var prefix, a := actions[..|actions| - 1], actions[|actions| - 1];
      RunEffects(st, prefix, e);
      ApplyEffects(Run(st, prefix), a, e);
      ApplyKeepsConsumed(Run(st, prefix), a);
      assert Run(st, actions) == Apply(Run(st, prefix), a);
    }
  }

  /** Every delivery of the event has been handed to the consumer. */
  predicate AllConsumed(st: State, e: nat) {
    forall d :: 0 <= d < |st.deliveries| && st.deliveries[d] == e ==> d in st.consumed
  }

  /** However often an event was delivered, its side effect ran at most once; and exactly once for a published
      event whose deliveries were all consumed, if and only if the consumer did not die on the first of them. */
  lemma EffectExactlyOnce(st: State, actions: seq<Action>, e: nat)
    requires Fresh(st)
    ensures var end := Run(st, actions);
      && Occurrences(end.effects, e) <= 1
      && (e in end.rows && end.rows[e].status == Published && AllConsumed(end, e) ==>
            (Occurrences(end.effects, e) == 1 <==> !EffectLost(st, actions, e)))
  {
    RunEffects(st, actions, e);
    RunInv(st, actions);
    var end := Run(st, actions);
    if e in end.rows && end.rows[e].status == Published && AllConsumed(end, e) {
      var d :| 0 <= d < |end.deliveries| && end.deliveries[d] == e;
    }
  }

  /** A consumer that dies between its INSERT and its side effect loses the effect for every redelivery. */
  lemma LostEffectStaysLost(st: State, d: nat, again: nat)
    requires d < |st.deliveries| && again < |st.deliveries| && st.deliveries[again] == st.deliveries[d]
    ensures Apply(Apply(st, LoseConsumer(d)), Consume(again)).effects == st.effects
  {
  }
}
