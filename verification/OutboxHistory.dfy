/** What the history of a run alone says about an outbox row: leases, guarded finalises, retries. */
module OutboxHistory {
  import opened Wrappers
  import opened Outbox

  /** The state before action `n` of the run, or at its end. */
  function At(st: State, actions: seq<Action>, n: nat): State
    requires n <= |actions|
  {
    Run(st, actions[..n])
  }

  /** The time of a claim. */
  function ClaimTime(st: State, actions: seq<Action>, k: nat): int
    requires k < |actions| && actions[k].ClaimEvent?
  {
    At(st, actions, k).clock + actions[k].elapsed
  }

  lemma AtNext(st: State, actions: seq<Action>, n: nat)
    requires n < |actions|
    ensures At(st, actions, n + 1) == Apply(At(st, actions, n), actions[n])
    ensures At(st, actions, n).clock <= At(st, actions, n + 1).clock
  {
    assert actions[..n + 1][..n] == actions[..n];
  }

  lemma {:induction false} ClockGrows(st: State, actions: seq<Action>, m: nat, n: nat)
    requires m <= n <= |actions|
    ensures At(st, actions, m).clock <= At(st, actions, n).clock
  {
    if m < n {
      ClockGrows(st, actions, m, n - 1);
      AtNext(st, actions, n - 1);
    }
  }

  predicate Claims(st: State, actions: seq<Action>, k: nat, e: nat) {
    k < |actions| && actions[k].ClaimEvent? && actions[k].event == e && Enabled(At(st, actions, k), actions[k])
  }

  /** Action `k` finalised the row: its loop's worker was the one in `locked_by`. */
  predicate Finalises(st: State, actions: seq<Action>, k: nat, e: nat) {
    && k < |actions| && actions[k].Finalise?
    && var before := At(st, actions, k);
      && Enabled(before, actions[k]) && before.loops[actions[k].loop].phase.event == e
      && before.rows[e].lockedBy == Some(before.loops[actions[k].loop].workerId)
  }

  predicate Touches(st: State, actions: seq<Action>, k: nat, e: nat) {
    Claims(st, actions, k, e) || Finalises(st, actions, k, e)
  }

  function ClaimsBefore(st: State, actions: seq<Action>, n: nat, e: nat): nat
    requires n <= |actions|
  {
    if n == 0 then 0 else ClaimsBefore(st, actions, n - 1, e) + if Claims(st, actions, n - 1, e) then 1 else 0
  }

  /** Of the actions before `n`, action `k` is the last to change the row. */
  ghost predicate LastTouch(st: State, actions: seq<Action>, n: nat, e: nat, k: nat) {
    k < n && Touches(st, actions, k, e) && forall j: nat :: k < j < n ==> !Touches(st, actions, j, e)
  }

  lemma {:induction false} CountsClaims(st: State, actions: seq<Action>, n: nat, e: nat)
    requires n <= |actions| && e in st.rows
    ensures var rows := At(st, actions, n).rows;
      && e in rows && rows[e].maxAttempts == st.rows[e].maxAttempts && rows[e].createdAt == st.rows[e].createdAt
      && rows[e].attempts == st.rows[e].attempts + ClaimsBefore(st, actions, n, e)
  {
    if n > 0 {
      CountsClaims(st, actions, n - 1, e);
      AtNext(st, actions, n - 1);
    }
  }

  /** Only claims and finalises change a row. */
  lemma StepUntouched(st: State, actions: seq<Action>, n: nat, e: nat)
    requires n < |actions| && e in At(st, actions, n).rows && !Touches(st, actions, n, e)
    ensures e in At(st, actions, n + 1).rows && At(st, actions, n + 1).rows[e] == At(st, actions, n).rows[e]
  {
    AtNext(st, actions, n);
    hide At, Run;
  }

  lemma {:induction false} UntouchedStays(st: State, actions: seq<Action>, m: nat, n: nat, e: nat)
    requires m <= n <= |actions| && e in At(st, actions, m).rows
    requires forall j: nat :: m <= j < n ==> !Touches(st, actions, j, e)
    ensures e in At(st, actions, n).rows && At(st, actions, n).rows[e] == At(st, actions, m).rows[e]
  {
    if m < n {
      UntouchedStays(st, actions, m, n - 1, e);
      StepUntouched(st, actions, n - 1, e);
      hide At, Touches;
    }
  }

  lemma StepKeepsWorkers(before: State, a: Action)
    ensures var after := Apply(before, a);
      && |after.loops| == |before.loops|
      && forall l :: 0 <= l < |before.loops| ==> after.loops[l].workerId == before.loops[l].workerId
  {
  }

  lemma {:induction false} LoopsKeepWorkers(st: State, actions: seq<Action>, n: nat)
    requires n <= |actions|
    ensures |At(st, actions, n).loops| == |st.loops|
    ensures forall l :: 0 <= l < |st.loops| ==> At(st, actions, n).loops[l].workerId == st.loops[l].workerId
  {
    if n > 0 {
      LoopsKeepWorkers(st, actions, n - 1);
      AtNext(st, actions, n - 1);
      StepKeepsWorkers(At(st, actions, n - 1), actions[n - 1]);
      hide At, Apply;
    }
  }

  /** The row as action `k`, the last to change it, left it: after a claim at time t it can be claimed exactly beyond
      t + leaseMs, and names the claiming loop's worker; after a finalise it names nobody, and is published if the
      broker accepted the event, and otherwise pending again as long as it was claimed less often than its limit, else
      failed. */
  lemma RowTellsHistory(st: State, actions: seq<Action>, n: nat, e: nat, k: nat, now: int)
    requires n <= |actions| && e in st.rows && LastTouch(st, actions, n, e, k)
    ensures e in At(st, actions, n).rows
    ensures var row, before := At(st, actions, n).rows[e], At(st, actions, k);
      match actions[k]
      case ClaimEvent(_, l, _, lease) =>
        && (Claimable(row, now) <==> now > ClaimTime(st, actions, k) + lease)
        && l < |st.loops| && row.lockedBy == Some(st.loops[l].workerId) && row.status == Processing
      case Finalise(l) =>
        && l < |before.loops| && row.lockedBy == None
        && row.status ==
          (if before.loops[l].phase.Delivered? then Published
           else if st.rows[e].attempts + ClaimsBefore(st, actions, k, e) < st.rows[e].maxAttempts then Pending
           else Failed)
        && (Claimable(row, now) <==> row.status == Pending)
      case _ => false
  {
    CountsClaims(st, actions, k, e);
    CountsClaims(st, actions, n, e);
    LoopsKeepWorkers(st, actions, k);
    AtNext(st, actions, k);
    UntouchedStays(st, actions, k + 1, n, e);
  }

  /** The lease: after a claim at time t, no loop can claim the event up to and including t + leaseMs, unless the row
      was finalised in between. */
  lemma {:induction false} LeaseExcludesOthers(st: State, actions: seq<Action>, n: nat, e: nat, k: nat, elapsed: nat,
                                               loop: nat, leaseMs: int)
    requires k < n <= |actions| && e in st.rows && Claims(st, actions, k, e)
    requires forall j: nat :: k < j < n ==> !Finalises(st, actions, j, e)
    requires At(st, actions, n).clock + elapsed <= ClaimTime(st, actions, k) + actions[k].leaseMs
    ensures !Enabled(At(st, actions, n), ClaimEvent(elapsed, loop, e, leaseMs))
  {
    forall j: nat | k < j < n ensures !Touches(st, actions, j, e) {
      ClockGrows(st, actions, j + 1, n);
      AtNext(st, actions, j);
      if actions[j].ClaimEvent? && actions[j].event == e && Claims(st, actions, j, e) {
        LeaseExcludesOthers(st, actions, j, e, k, actions[j].elapsed, actions[j].loop, actions[j].leaseMs);
      }
    }
    RowTellsHistory(st, actions, n, e, k, At(st, actions, n).clock + elapsed);
  }

  // ---- Consumption ----

  /** Delivery `d` was handed to the consumer, which may have died on it. */
  function HandedOver(st: State, actions: seq<Action>, d: nat): bool {
    actions != [] &&
    var prefix, a := actions[..|actions| - 1], actions[|actions| - 1];
    HandedOver(st, prefix, d) || ((a == Consume(d) || a == LoseConsumer(d)) && Enabled(Run(st, prefix), a))
  }

  /** Every delivery counts as consumed exactly if it was handed to the consumer, duplicates included. */
  lemma {:induction false} ConsumedIff(st: State, actions: seq<Action>, d: nat)
    requires Fresh(st)
    ensures d in Run(st, actions).consumed <==> HandedOver(st, actions, d)
  {
    if actions != [] {
      ConsumedIff(st, actions[..|actions| - 1], d);
    }
  }
}
