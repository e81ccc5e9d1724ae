/** What the history of a run alone says about a job and about its audit rows: leases, retries, release times. */
module JobHistory {
  import opened Wrappers
  import opened JobQueue

  /** The queue before action `n` of the run, or at its end. */
  function At(st: State, actions: seq<Action>, n: nat): State
    requires n <= |actions|
  {
    Run(st, actions[..n])
  }

  function TimeOf(st: State, actions: seq<Action>, k: nat): int
    requires k < |actions|
  {
    At(st, actions, k).clock + actions[k].elapsed
  }

  lemma AtNext(st: State, actions: seq<Action>, n: nat)
    requires n < |actions|
    ensures At(st, actions, n + 1) == Apply(At(st, actions, n), actions[n])
    ensures At(st, actions, n + 1).clock == TimeOf(st, actions, n) >= At(st, actions, n).clock
  {
    assert actions[..n + 1][..n] == actions[..n];
  }

  lemma {:induction false} ClockGrows(st: State, actions: seq<Action>, m: nat, n: nat)
    requires m <= n <= |actions|
    ensures At(st, actions, m).clock <= At(st, actions, n).clock
  {
    if m < n {
      ClockGrows(st, actions, m, n - 1);
      AtNext(st, actions, n - 1);
    }
  }

  /** Action `k` claimed the job. */
  predicate Claims(st: State, actions: seq<Action>, k: nat, job: nat) {
    k < |actions| && actions[k].ClaimAction? && actions[k].job == job && Enabled(At(st, actions, k), actions[k])
  }

  /** Action `k` completed or failed one of the job's attempts, lost or not. */
  predicate Finishes(st: State, actions: seq<Action>, k: nat, job: nat) {
    && k < |actions| && actions[k].FinishAction? && Enabled(At(st, actions, k), actions[k])
    && At(st, actions, k).store.attempts[actions[k].attempt].jobId == job
  }

  predicate Touches(st: State, actions: seq<Action>, k: nat, job: nat) {
    Claims(st, actions, k, job) || Finishes(st, actions, k, job)
  }

  /** How often the job was claimed before action `n`. */
  function ClaimsBefore(st: State, actions: seq<Action>, n: nat, job: nat): nat
    requires n <= |actions|
  {
    if n == 0 then 0
    else ClaimsBefore(st, actions, n - 1, job) + if Claims(st, actions, n - 1, job) then 1 else 0
  }

  /** Of the actions before `n`, action `k` is the last to touch the job. */
  ghost predicate LastTouch(st: State, actions: seq<Action>, n: nat, job: nat, k: nat) {
    k < n && Touches(st, actions, k, job) && forall j: nat :: k < j < n ==> !Touches(st, actions, j, job)
  }

  // ---- The job's row ----

  lemma {:induction false} CountsClaims(st: State, actions: seq<Action>, n: nat, job: nat)
    requires n <= |actions| && job in st.store.jobs
    ensures var s := At(st, actions, n).store;
      && job in s.jobs && s.jobs[job].maxAttempts == st.store.jobs[job].maxAttempts
      && s.jobs[job].createdAt == st.store.jobs[job].createdAt
      && s.jobs[job].attempts == st.store.jobs[job].attempts + ClaimsBefore(st, actions, n, job)
  {
    if n > 0 {
      CountsClaims(st, actions, n - 1, job);
      AtNext(st, actions, n - 1);
    }
  }

  /** Only claims and finishes change a job. */
  lemma StepUntouched(st: State, actions: seq<Action>, n: nat, job: nat)
    requires n < |actions| && job in At(st, actions, n).store.jobs && !Touches(st, actions, n, job)
    ensures job in At(st, actions, n + 1).store.jobs
    ensures At(st, actions, n + 1).store.jobs[job] == At(st, actions, n).store.jobs[job]
  {
    AtNext(st, actions, n);
    hide At, Run;
  }

  lemma {:induction false} UntouchedStays(st: State, actions: seq<Action>, m: nat, n: nat, job: nat)
    requires m <= n <= |actions| && job in At(st, actions, m).store.jobs
    requires forall j: nat :: m <= j < n ==> !Touches(st, actions, j, job)
    ensures job in At(st, actions, n).store.jobs
    ensures At(st, actions, n).store.jobs[job] == At(st, actions, m).store.jobs[job]
  {
    if m < n {
      UntouchedStays(st, actions, m, n - 1, job);
      StepUntouched(st, actions, n - 1, job);
      hide At, Touches;
    }
  }

  /** Who may claim a job when, from the history alone, stale workers included. After a claim at time t, exactly the
      times beyond t + leaseMs; after a completion, none; after a failure, every time if the job was claimed less often
      than its limit, and none otherwise. */
  lemma ClaimableIff(st: State, actions: seq<Action>, n: nat, job: nat, k: nat, elapsed: nat, worker: string,
                     leaseMs: int)
    requires n <= |actions| && job in st.store.jobs && LastTouch(st, actions, n, job, k)
    ensures var end := At(st, actions, n);
      Enabled(end, ClaimAction(elapsed, worker, leaseMs, job)) <==>
        (match actions[k]
         case ClaimAction(_, _, lease, _) => end.clock + elapsed > TimeOf(st, actions, k) + lease
         case FinishAction(_, _, success) =>
           && !success
           && st.store.jobs[job].attempts + ClaimsBefore(st, actions, k, job) < st.store.jobs[job].maxAttempts)
    ensures job in At(st, actions, n).store.jobs && At(st, actions, n).store.jobs[job].lockedBy
      == if actions[k].ClaimAction? then Some(actions[k].worker) else None
  {
    CountsClaims(st, actions, k, job);
    CountsClaims(st, actions, n, job);
    AtNext(st, actions, k);
    UntouchedStays(st, actions, k + 1, n, job);
  }

  /** The lease: after a claim at time t, the job cannot be claimed again up to and including t + leaseMs, unless it was
      finished in between. */
  lemma {:induction false} LeaseExcludesOthers(st: State, actions: seq<Action>, n: nat, job: nat, k: nat, elapsed: nat,
                                               worker: string, leaseMs: int)
    requires k < n <= |actions| && job in st.store.jobs && Claims(st, actions, k, job)
    requires forall j: nat :: k < j < n ==> !Finishes(st, actions, j, job)
    requires At(st, actions, n).clock + elapsed <= TimeOf(st, actions, k) + actions[k].leaseMs
    ensures !Enabled(At(st, actions, n), ClaimAction(elapsed, worker, leaseMs, job))
  {
    forall j: nat | k < j < n ensures !Touches(st, actions, j, job) {
      ClockGrows(st, actions, j + 1, n);
      AtNext(st, actions, j);
      if actions[j].ClaimAction? && actions[j].job == job {
        LeaseExcludesOthers(st, actions, j, job, k, actions[j].elapsed, actions[j].worker, actions[j].leaseMs);
      }
    }
    ClaimableIff(st, actions, n, job, k, elapsed, worker, leaseMs);
  }

  // ---- The audit rows ----

  /** Action `j` finished the attempt in row `a`. */
  predicate FinishesRow(st: State, actions: seq<Action>, j: nat, a: nat) {
    j < |actions| && actions[j].FinishAction? && actions[j].attempt == a && Enabled(At(st, actions, j), actions[j])
  }

  /** Action `j` claimed the job from a holder whose lease was over. */
  predicate Reclaims(st: State, actions: seq<Action>, j: nat, job: nat) {
    Claims(st, actions, j, job) && At(st, actions, j).store.jobs[job].status == Processing
  }

  /** The row as the actions before `n` leave it: finished last by action `j`. */
  ghost predicate FinishedBy(st: State, actions: seq<Action>, n: nat, a: nat, j: nat) {
    j < n && FinishesRow(st, actions, j, a) && forall i: nat :: j < i < n ==> !FinishesRow(st, actions, i, a)
  }

  /** Never finished, and first taken over by action `j`. */
  ghost predicate ExpiredBy(st: State, actions: seq<Action>, n: nat, a: nat, job: nat, k: nat, j: nat) {
    && k < j < n && Reclaims(st, actions, j, job) && (forall i: nat :: k < i < j ==> !Reclaims(st, actions, i, job))
    && (forall i: nat :: i < n ==> !FinishesRow(st, actions, i, a))
  }

  ghost predicate StillOpen(st: State, actions: seq<Action>, n: nat, a: nat, job: nat, k: nat) {
    && (forall i: nat :: k < i < n ==> !Reclaims(st, actions, i, job))
    && (forall i: nat :: i < n ==> !FinishesRow(st, actions, i, a))
  }

  /** Attempt row `a`, before action `n`, as the history since its claim by action `k` tells it. */
  ghost predicate RowTold(st: State, actions: seq<Action>, n: nat, a: nat, k: nat)
    requires k < n <= |actions| && actions[k].ClaimAction? && a < |At(st, actions, n).store.attempts|
  {
    var row, job := At(st, actions, n).store.attempts[a], actions[k].job;
    && row.jobId == job && row.workerId == actions[k].worker && row.claimedAt == TimeOf(st, actions, k)
    && (forall j: nat :: FinishedBy(st, actions, n, a, j) ==>
          && row.status == (if actions[j].success then Succeeded else Errored)
          && row.releasedAt == Some(TimeOf(st, actions, j)))
    && (forall j: nat :: ExpiredBy(st, actions, n, a, job, k, j) ==>
          row.status == Expired && row.releasedAt == Some(TimeOf(st, actions, j)))
    && (StillOpen(st, actions, n, a, job, k) ==> row.status == Claimed && row.releasedAt == None)
  }

  lemma {:induction false} RowsOnlyAdded(st: State, actions: seq<Action>, m: nat, n: nat)
    requires m <= n <= |actions|
    ensures |At(st, actions, m).store.attempts| <= |At(st, actions, n).store.attempts|
  {
    if m < n {
      RowsOnlyAdded(st, actions, m, n - 1);
      AtNext(st, actions, n - 1);
    }
  }

  /** What one action does to an audit row. */
  function NextRow(st: State, action: Action, a: nat): Attempt
    requires a < |st.store.attempts|
  {
    var row, now := st.store.attempts[a], st.clock + action.elapsed;
    if !Enabled(st, action) then row
    else if action.FinishAction? then
      if action.attempt == a
      then row.(status := if action.success then Succeeded else Errored, releasedAt := Some(now)) else row
    else if st.store.jobs[action.job].status == Processing && row.jobId == action.job && row.status == Claimed
    then row.(status := Expired, releasedAt := Some(now))
    else row
  }

  lemma RowStep(st: State, action: Action, a: nat)
    requires a < |st.store.attempts|
    ensures a < |Apply(st, action).store.attempts| && Apply(st, action).store.attempts[a] == NextRow(st, action, a)
  {
  }

  lemma FinishTold(st: State, actions: seq<Action>, n: nat, a: nat, k: nat)
    requires k < n - 1 < n <= |actions| && actions[k].ClaimAction?
    requires a < |At(st, actions, n - 1).store.attempts| && RowTold(st, actions, n - 1, a, k)
    requires a < |At(st, actions, n).store.attempts|
    requires At(st, actions, n).store.attempts[a] == NextRow(At(st, actions, n - 1), actions[n - 1], a)
    requires FinishesRow(st, actions, n - 1, a)
    ensures RowTold(st, actions, n, a, k)
  {
    hide At, Run, Enabled, Claims;
    var job := actions[k].job;
    forall j: nat | FinishedBy(st, actions, n, a, j) ensures j == n - 1 {
      assert !(j < n - 1 < n);
    }
    assert !StillOpen(st, actions, n, a, job, k);
    assert forall j: nat :: !ExpiredBy(st, actions, n, a, job, k, j);
  }

  lemma NoFinishTold(st: State, actions: seq<Action>, n: nat, a: nat, k: nat)
    requires k < n - 1 < n <= |actions| && actions[k].ClaimAction?
    requires a < |At(st, actions, n - 1).store.attempts| && RowTold(st, actions, n - 1, a, k)
    requires a < |At(st, actions, n).store.attempts|
    requires At(st, actions, n).store.attempts[a] == NextRow(At(st, actions, n - 1), actions[n - 1], a)
    requires !FinishesRow(st, actions, n - 1, a)
    ensures RowTold(st, actions, n, a, k)
  {
    hide At;
    var job := actions[k].job;
    forall j: nat | FinishedBy(st, actions, n, a, j) ensures FinishedBy(st, actions, n - 1, a, j) {
    }
    forall j: nat | ExpiredBy(st, actions, n, a, job, k, j)
      ensures ExpiredBy(st, actions, n - 1, a, job, k, j) || (j == n - 1 && StillOpen(st, actions, n - 1, a, job, k))
    {
    }
    assert StillOpen(st, actions, n, a, job, k) ==>
        StillOpen(st, actions, n - 1, a, job, k) && !Reclaims(st, actions, n - 1, job);
  }

  /** Every claim's audit row keeps its worker and its time, and carries the outcome and the time of the last finish of
      it; with none, of the first later claim that took the job over; with neither, it is still 'claimed'. */
  lemma {:induction false} RowTellsHistory(st: State, actions: seq<Action>, n: nat, k: nat)
    requires k < n <= |actions| && actions[k].ClaimAction? && Enabled(At(st, actions, k), actions[k])
    ensures var a := |At(st, actions, k).store.attempts|;
      a < |At(st, actions, n).store.attempts| && RowTold(st, actions, n, a, k)
  {
    var a := |At(st, actions, k).store.attempts|;
    if n == k + 1 {
      FirstRow(st, actions, k);
    } else {
      RowTellsHistory(st, actions, n - 1, k);
      AtNext(st, actions, n - 1);
      RowStep(At(st, actions, n - 1), actions[n - 1], a);
      hide Apply, Enabled, At, Run, TimeOf, Claims, RowTold, NextRow, FinishesRow;
      if FinishesRow(st, actions, n - 1, a) {
        FinishTold(st, actions, n, a, k);
      } else {
        NoFinishTold(st, actions, n, a, k);
      }
    }
  }

  /** The row a claim inserts. */
  lemma FirstRow(st: State, actions: seq<Action>, k: nat)
    requires k < |actions| && actions[k].ClaimAction? && Enabled(At(st, actions, k), actions[k])
    ensures var a := |At(st, actions, k).store.attempts|;
      a < |At(st, actions, k + 1).store.attempts| && RowTold(st, actions, k + 1, a, k)
  {
    var a := |At(st, actions, k).store.attempts|;
    AtNext(st, actions, k);
    forall i: nat | i < k + 1 ensures !FinishesRow(st, actions, i, a) {
      RowsOnlyAdded(st, actions, i, k);
    }
    hide At, Run, FinishesRow, Reclaims;
  }
}
