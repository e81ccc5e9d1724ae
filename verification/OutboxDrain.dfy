/** Several publisher loops draining one outbox. */
module OutboxDrain {
  import opened Decimals
  import opened Wrappers
  import opened IdLists
  import opened Outbox
  import opened OutboxPublisher
  import opened Totals

  // ---- Any interleaving, while the broker is fast ----

  /** No lease lapsed before its finalise (every claim found its row pending), no loop crashed, and the broker
      took every call. */
  ghost predicate Fast(st: State, actions: seq<Action>) {
    actions != [] ==>
      var prefix, a := actions[..|actions| - 1], actions[|actions| - 1];
      && Fast(st, prefix)
      && !a.Crash? && !(a.BrokerReply? && !a.ok)
      && (a.ClaimEvent? && Enabled(Run(st, prefix), a) ==> Run(st, prefix).rows[a.event].status == Pending)
  }

  /** Some loop is on its way to publish the event under its lock. */
  ghost predicate Attended(st: State, e: nat)
    requires e in st.rows
  {
    exists l :: 0 <= l < |st.loops| && st.loops[l].phase.Holds(e) && !st.loops[l].phase.Rejected?
      && st.rows[e].lockedBy == Some(st.loops[l].workerId)
  }

  ghost predicate FastInv(st: State) {
    && (forall l :: 0 <= l < |st.loops| ==> !st.loops[l].phase.Rejected?)
    && (forall e :: e in st.rows ==>
          && (st.rows[e].status == Pending ==> st.rows[e].attempts == 0 && st.rows[e].lockedBy == None)
          && (st.rows[e].status == Processing ==> st.rows[e].attempts == 1 && Attended(st, e))
          && (st.rows[e].status == Published ==> st.rows[e].attempts == 1 && st.rows[e].lockedBy == None)
          && st.rows[e].status != Failed)
  }

  lemma StaysAttended(st: State, a: Action, e: nat)
    requires FastInv(st) && PhasesMatch(st) && !a.Crash? && !(a.BrokerReply? && !a.ok)
    requires e in Apply(st, a).rows && Apply(st, a).rows[e].status == Processing
    ensures Attended(Apply(st, a), e)
  {
    var next := Apply(st, a);
    if Enabled(st, a) && !a.Consume? && !a.LoseConsumer? {
      ApplyPhase(st, a);
      if a.ClaimEvent? && a.event == e {
        assert next.loops[a.loop].phase.Holds(e);
      } else {
        var l :| 0 <= l < |st.loops| && st.loops[l].phase.Holds(e) && !st.loops[l].phase.Rejected?
          && st.rows[e].lockedBy == Some(st.loops[l].workerId);
        assert next.loops[l].phase.Holds(e);
      }
    }
  }

  lemma FastStep(st: State, a: Action)
    requires FastInv(st) && PhasesMatch(st) && !a.Crash? && !(a.BrokerReply? && !a.ok)
    requires a.ClaimEvent? && Enabled(st, a) ==> st.rows[a.event].status == Pending
    ensures FastInv(Apply(st, a))
  {
    forall e | e in Apply(st, a).rows && Apply(st, a).rows[e].status == Processing ensures Attended(Apply(st, a), e) {
      StaysAttended(st, a, e);
    }
    hide Attended, PhasesMatch;
  }

  lemma {:induction false} FastRun(st: State, actions: seq<Action>)
    requires Fresh(st) && Fast(st, actions)
    ensures FastInv(Run(st, actions)) && Inv(Run(st, actions))
  {
    RunInv(st, actions);
    if actions != [] {
      var prefix := actions[..|actions| - 1];
      FastRun(st, prefix);
      FastStep(Run(st, prefix), actions[|actions| - 1]);
    }
  }

  /** Every loop has stopped, having found nothing to claim. */
  ghost predicate Drained(st: State) {
    && (forall e :: e in st.rows ==> !Claimable(st.rows[e], st.clock))
    && forall l :: 0 <= l < |st.loops| ==> st.loops[l].phase == Idle
  }

  /** While the broker is fast, no event is claimed twice, however the loops interleave; once nothing is claimable
      and every loop has stopped, every event is published and was delivered exactly once. */
  lemma FastDrainExactlyOnce(st: State, actions: seq<Action>, e: nat)
    requires Fresh(st) && Fast(st, actions) && e in Run(st, actions).rows
    ensures Run(st, actions).rows[e].attempts <= 1
    ensures Occurrences(Run(st, actions).deliveries, e) <= 1
    ensures Drained(Run(st, actions)) ==>
      Run(st, actions).rows[e].status == Published && Occurrences(Run(st, actions).deliveries, e) == 1
  {
    FastRun(st, actions);
    RunSafe(st, actions, e);
    hide Run;
  }

  // ---- And it ends ----

  /** Steps a loop has before it is idle again. */
  function PhaseSteps(p: Phase): nat {
    match p
    case Idle => 0
    case HasClaim(_, _) => 3
    case InCall(_, _) => 2
    case Delivered(_, _) => 1
    case Rejected(_, _) => 1
  }

  function LoopSteps(loops: seq<Loop>): nat {
    if loops == [] then 0 else LoopSteps(loops[..|loops| - 1]) + PhaseSteps(loops[|loops| - 1].phase)
  }

  /** Claim, call, reply and finalise of every row still pending. */
  function RowSteps(rows: map<nat, Row>): map<nat, nat> {
    map e | e in rows :: if rows[e].status == Pending then 4 else 0
  }

  function StepsLeft(st: State): nat {
    LoopSteps(st.loops) + Total(RowSteps(st.rows))
  }

  /** A step that some loop really takes. */
  predicate LoopStep(st: State, a: Action) {
    Enabled(st, a) && !a.Consume? && !a.LoseConsumer?
  }

  function StepsTaken(st: State, actions: seq<Action>): nat {
    if actions == [] then 0 else
      var prefix := actions[..|actions| - 1];
      StepsTaken(st, prefix) + if LoopStep(Run(st, prefix), actions[|actions| - 1]) then 1 else 0
  }

  lemma {:induction false} LoopStepsUpdate(loops: seq<Loop>, l: nat, phase: Phase)
    requires l < |loops|
    ensures LoopSteps(loops[l := loops[l].(phase := phase)])
      == LoopSteps(loops) - PhaseSteps(loops[l].phase) + PhaseSteps(phase)
  {
    var n := |loops| - 1;
    var next := loops[l := loops[l].(phase := phase)];
    if l < n {
      LoopStepsUpdate(loops[..n], l, phase);
      assert next[..n] == loops[..n][l := loops[l].(phase := phase)];
    } else {
      assert next[..n] == loops[..n];
    }
  }

  lemma RowStepsUpdate(rows: map<nat, Row>, e: nat, row: Row)
    requires e in rows
    ensures Total(RowSteps(rows[e := row]))
      == Total(RowSteps(rows)) - (if rows[e].status == Pending then 4 else 0) + (if row.status == Pending then 4 else 0)
  {
    assert RowSteps(rows[e := row]) == RowSteps(rows)[e := if row.status == Pending then 4 else 0];
    TotalUpdate(RowSteps(rows), e, if row.status == Pending then 4 else 0);
  }

  predicate Waits(rows: map<nat, Row>, e: nat) {
    e in rows && rows[e].status == Pending
  }

  /** The one row that a loop's step may change, and what becomes of the loop: only a claim ends a row's wait. */
  lemma FastStepRow(st: State, a: Action)
    requires FastInv(st) && PhasesMatch(st) && LoopStep(st, a) && !a.Crash? && !(a.BrokerReply? && !a.ok)
    requires a.ClaimEvent? ==> st.rows[a.event].status == Pending
    ensures a.loop < |st.loops| == |Apply(st, a).loops|
    ensures var next, e := Apply(st, a), if a.ClaimEvent? then a.event else st.loops[a.loop].phase.event;
      && e in st.rows && e in next.rows && next.rows == st.rows[e := next.rows[e]]
      && (Waits(next.rows, e) <==> Waits(st.rows, e) && !a.ClaimEvent?)
      && PhaseSteps(next.loops[a.loop].phase) + 1
        == PhaseSteps(st.loops[a.loop].phase) + if a.ClaimEvent? then 4 else 0
  {
    ApplyPhase(st, a);
  }

  lemma FastStepLowers(st: State, a: Action)
    requires FastInv(st) && PhasesMatch(st) && !a.Crash? && !(a.BrokerReply? && !a.ok)
    requires a.ClaimEvent? && Enabled(st, a) ==> st.rows[a.event].status == Pending
    ensures StepsLeft(Apply(st, a)) + (if LoopStep(st, a) then 1 else 0) == StepsLeft(st)
  {
    if LoopStep(st, a) {
      var next := Apply(st, a);
      ApplyPhase(st, a);
      FastStepRow(st, a);
      var e := if a.ClaimEvent? then a.event else st.loops[a.loop].phase.event;
      LoopStepsUpdate(st.loops, a.loop, next.loops[a.loop].phase);
      RowStepsUpdate(st.rows, e, next.rows[e]);
      hide Apply, LoopSteps, PhaseSteps, Total, RowSteps, FastInv, PhasesMatch;
      assert StepsLeft(next) + 1 == StepsLeft(st);
    }
  }

  lemma {:induction false} NoLoopSteps(loops: seq<Loop>)
    ensures LoopSteps(loops) == 0 <==> forall l :: 0 <= l < |loops| ==> loops[l].phase == Idle
  {
    if loops != [] {
      NoLoopSteps(loops[..|loops| - 1]);
    }
  }

  /** While the broker is fast, every drain ends, however the loops interleave: the steps taken and the steps left
      sum up to four for each event all along, and when none are left every event is published. */
  lemma FastDrainEnds(st: State, actions: seq<Action>)
    requires Fresh(st) && Fast(st, actions)
    ensures StepsTaken(st, actions) + StepsLeft(Run(st, actions)) == 4 * |st.rows|
    ensures StepsLeft(Run(st, actions)) == 0 ==>
      forall e :: e in Run(st, actions).rows ==> Run(st, actions).rows[e].status == Published
  {
    StepsSum(st, actions);
    FreshSteps(st);
    FastRun(st, actions);
    if StepsLeft(Run(st, actions)) == 0 {
      NoStepsLeft(Run(st, actions));
    }
    hide Run, Fresh, StepsTaken, StepsLeft, FastInv, Inv;
  }

  lemma FreshSteps(st: State)
    requires Fresh(st)
    ensures StepsLeft(st) == 4 * |st.rows|
  {
    NoLoopSteps(st.loops);
    TotalOfEqual(RowSteps(st.rows), 4);
    assert RowSteps(st.rows).Keys == st.rows.Keys;
  }

  lemma NoStepsLeft(st: State)
    requires FastInv(st) && StepsLeft(st) == 0
    ensures forall e :: e in st.rows ==> st.rows[e].status == Published
  {
    NoLoopSteps(st.loops);
    forall e | e in st.rows ensures st.rows[e].status != Pending {
      EachBelowTotal(RowSteps(st.rows), e);
    }
  }

  lemma {:induction false} StepsSum(st: State, actions: seq<Action>)
    requires Fresh(st) && Fast(st, actions)
    ensures StepsTaken(st, actions) + StepsLeft(Run(st, actions)) == StepsLeft(st)
  {
    if actions != [] {
      var prefix := actions[..|actions| - 1];
      StepsSum(st, prefix);
      FastRun(st, prefix);
      FastStepLowers(Run(st, prefix), actions[|actions| - 1]);
    }
  }

  // ---- The loops as a program ----

  predicate Terminal(row: Row) {
    row.status == Published || row.status == Failed
  }

  function ClaimsOf(row: Row): nat {
    ClaimsLeft(Terminal(row), row.attempts, row.maxAttempts)
  }

  function Left(rows: map<nat, Row>): map<nat, nat> {
    map e | e in rows :: ClaimsOf(rows[e])
  }

  /** One whole round of a loop uses up one of the event's claims and touches no other row. */
  lemma RoundUsesOneClaim(st: State, e: nat, leaseMs: int, elapsed: nat, published: bool)
    requires |st.loops| == 1 && st.loops[0].phase == Idle && e in st.rows && Claimable(st.rows[e], st.clock + elapsed)
    ensures var called :=
      Apply(Apply(Apply(st, ClaimEvent(elapsed, 0, e, leaseMs)), CallBroker(0)), BrokerReply(0, published));
      var after := Apply(called, Finalise(0)).rows;
      && e in after && after == st.rows[e := after[e]]
      && after[e].status == (if published then Published
                             else if st.rows[e].attempts + 1 >= st.rows[e].maxAttempts then Failed else Pending)
      && ClaimsOf(after[e]) < ClaimsOf(st.rows[e])
  {
    var claimed := Apply(st, ClaimEvent(elapsed, 0, e, leaseMs));
    assert claimed.loops[0].phase == HasClaim(e, st.rows[e].attempts + 1);
    var calling := Apply(claimed, CallBroker(0));
    assert calling.loops[0].phase == InCall(e, st.rows[e].attempts + 1) && calling.rows == claimed.rows;
    var called := Apply(calling, BrokerReply(0, published));
    assert called.rows == claimed.rows && called.loops[0].workerId == st.loops[0].workerId;
  }

  lemma LeftUpdate(rows: map<nat, Row>, e: nat, row: Row)
    requires e in rows
    ensures Total(Left(rows[e := row])) == Total(Left(rows)) - ClaimsOf(rows[e]) + ClaimsOf(row)
  {
    assert Left(rows[e := row]) == Left(rows)[e := ClaimsOf(row)];
    TotalUpdate(Left(rows), e, ClaimsOf(row));
  }

  lemma OldestClaimable(rows: map<nat, Row>, now: int, e: nat)
    requires Oldest(rows, now, e)
    ensures e in rows && Claimable(rows[e], now)
  {}

  function WorkerId(index: nat): string {
    "worker-" + Decimal(index)
  }

  function Indices(n: nat): (ids: set<nat>)
    ensures forall w: nat :: w in ids <==> w < n
  {
    if n == 0 then {} else Indices(n - 1) + {n - 1}
  }

  function Sum(counts: seq<nat>): nat {
    if counts == [] then 0 else Sum(counts[..|counts| - 1]) + counts[|counts| - 1]
  }

  lemma {:induction false} SumIncrement(counts: seq<nat>, w: nat)
    requires w < |counts|
    ensures Sum(counts[w := counts[w] + 1]) == Sum(counts) + 1
  {
    var n := |counts| - 1;
    if w < n {
      SumIncrement(counts[..n], w);
      assert counts[w := counts[w] + 1][..n] == counts[..n][w := counts[w] + 1];
    } else {
      assert counts[w := counts[w] + 1][..n] == counts[..n];
    }
  }

  /** One round of one loop: it uses up one remaining claim of its event, and an accepted event is published. */
  method Round(store: OutboxStore, broker: SimulatedBroker, worker: string, leaseMs: int) returns (claimed: Option<nat>)
    modifies store, broker
    ensures store.rows.Keys == old(store.rows).Keys
    ensures claimed.None? ==>
      && store.rows == old(store.rows) && broker.deliveries == old(broker.deliveries)
      && forall e :: e in store.rows ==> !Claimable(store.rows[e], store.clock)
    ensures claimed.Some? ==>
      && claimed.value in store.rows && !Terminal(old(store.rows)[claimed.value])
      && store.rows == old(store.rows)[claimed.value := store.rows[claimed.value]]
      && Total(Left(store.rows)) < Total(Left(old(store.rows)))
      && (broker.mode != Reject ==>
            store.rows[claimed.value].status == Published
              && broker.deliveries == old(broker.deliveries) + [claimed.value])
  {
    // any time may have passed since the loop's last round
    var elapsed: nat :| true;
    ghost var before := AsState(store, broker, worker);
    var result := ClaimAndPublish(store, broker, worker, leaseMs, elapsed, false);
    if result.NothingClaimed? {
      return None;
    }
    var e := result.event;
    OldestClaimable(before.rows, before.clock + elapsed, e);
    RoundUsesOneClaim(before, e, leaseMs, elapsed, result.published);
    RoundDelivers(before, e, leaseMs, elapsed, result.published);
    hide Apply;
    LeftUpdate(before.rows, e, store.rows[e]);
    return Some(e);
  }

  lemma RoundDelivers(st: State, e: nat, leaseMs: int, elapsed: nat, published: bool)
    requires |st.loops| == 1 && st.loops[0].phase == Idle && e in st.rows && Claimable(st.rows[e], st.clock + elapsed)
    ensures var called :=
      Apply(Apply(Apply(st, ClaimEvent(elapsed, 0, e, leaseMs)), CallBroker(0)), BrokerReply(0, published));
      Apply(called, Finalise(0)).deliveries == if published then st.deliveries + [e] else st.deliveries
  {
    var claimed := Apply(st, ClaimEvent(elapsed, 0, e, leaseMs));
    assert claimed.loops[0].phase == HasClaim(e, st.rows[e].attempts + 1) && claimed.deliveries == st.deliveries;
    var calling := Apply(claimed, CallBroker(0));
    assert calling.loops[0].phase == InCall(e, st.rows[e].attempts + 1) && calling.deliveries == st.deliveries;
  }

  /** The claimed events are all published, and none of them was claimed twice. */
  ghost predicate PublishedOnce(rows: map<nat, Row>, claimed: seq<nat>) {
    && (forall k :: 0 <= k < |claimed| ==> claimed[k] in rows && rows[claimed[k]].status == Published)
    && (forall j, k :: 0 <= j < k < |claimed| ==> claimed[j] != claimed[k])
  }

  lemma PublishedOnceMore(rows: map<nat, Row>, after: map<nat, Row>, claimed: seq<nat>, e: nat)
    requires e in rows && !Terminal(rows[e]) && e in after && after == rows[e := after[e]]
      && after[e].status == Published
    ensures PublishedOnce(rows, claimed) ==> PublishedOnce(after, claimed + [e])
  {}

  /** Every claim was of an event of the outbox, and used up one of the claims there were. */
  ghost predicate Accounted(before: map<nat, Row>, rows: map<nat, Row>, claimed: seq<nat>) {
    && rows.Keys == before.Keys
    && |claimed| + Total(Left(rows)) <= Total(Left(before))
    && forall k :: 0 <= k < |claimed| ==> claimed[k] in before
  }

  lemma AccountedMore(before: map<nat, Row>, rows: map<nat, Row>, after: map<nat, Row>, claimed: seq<nat>, e: nat)
    requires Accounted(before, rows, claimed) && e in rows && after.Keys == rows.Keys
      && Total(Left(after)) < Total(Left(rows))
    ensures Accounted(before, after, claimed + [e])
  {}

  /** Every loop runs rounds until it finds nothing to claim; which loop runs next, and how much time passes, is
      arbitrary. All loops end, for every outbox and every broker; the totals agree; a broker that takes every
      call gets no event twice; and what is left was claimable by nobody when the last loop looked. */
  method DrainWithWorkers(store: OutboxStore, broker: SimulatedBroker, workerCount: nat, leaseMs: int)
    returns (claimsByWorker: seq<nat>, claimedEventIds: seq<nat>, totalClaimed: nat)
    modifies store, broker
    ensures |claimsByWorker| == workerCount && Sum(claimsByWorker) == totalClaimed == |claimedEventIds|
    ensures Accounted(old(store.rows), store.rows, claimedEventIds)
    ensures broker.mode != Reject ==>
      && PublishedOnce(store.rows, claimedEventIds)
      && broker.deliveries == old(broker.deliveries) + claimedEventIds
    ensures workerCount > 0 ==> forall e :: e in store.rows ==> !Claimable(store.rows[e], store.clock)
  {
    claimsByWorker, claimedEventIds := seq(workerCount, _ => 0), [];
    SumZeros(workerCount);
    assert workerCount > 0 ==> 0 in Indices(workerCount);
    var running := Indices(workerCount);
    while running != {}
      invariant running <= Indices(workerCount)
      invariant |claimsByWorker| == workerCount && Sum(claimsByWorker) == |claimedEventIds|
      invariant Accounted(old(store.rows), store.rows, claimedEventIds)
      invariant broker.mode != Reject ==>
        PublishedOnce(store.rows, claimedEventIds) && broker.deliveries == old(broker.deliveries) + claimedEventIds
      invariant workerCount > 0 && running == {} ==> forall e :: e in store.rows ==>
        !Claimable(store.rows[e], store.clock)
      decreases Total(Left(store.rows)), running
    {
      hide Total, Left, Sum, WorkerId, Claimable, PublishedOnce, Indices, Accounted;
      var w :| w in running;
      ghost var before := store.rows;
      var claimed := Round(store, broker, WorkerId(w), leaseMs);
      if claimed.None? {
        running := running - {w};
      } else {
        SumIncrement(claimsByWorker, w);
        AccountedMore(old(store.rows), before, store.rows, claimedEventIds, claimed.value);
        if broker.mode != Reject {
          PublishedOnceMore(before, store.rows, claimedEventIds, claimed.value);
        }
        claimsByWorker := claimsByWorker[w := claimsByWorker[w] + 1];
        claimedEventIds := claimedEventIds + [claimed.value];
      }
    }
    totalClaimed := |claimedEventIds|;
  }

  lemma {:induction false} SumZeros(n: nat)
    ensures Sum(seq(n, _ => 0)) == 0
  {
    if n > 0 {
      SumZeros(n - 1);
      assert seq(n, _ => 0)[..n - 1] == seq(n - 1, _ => 0);
    }
  }
}
