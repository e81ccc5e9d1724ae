/** The queue's tables as an object, and one worker's loop over them. */
module JobWorker {
  import opened Wrappers
  import opened JobQueue
  import opened IdLists
  import opened Totals

  datatype ClaimedJob = ClaimedJob(jobId: nat, attemptId: nat, reclaimed: bool)

  /** `ORDER BY created_at LIMIT 1` over the claimable rows. */
  ghost predicate Oldest(jobs: map<nat, Job>, now: int, id: nat) {
    && id in jobs && Claimable(jobs[id], now)
    && forall j :: j in jobs && Claimable(jobs[j], now) ==> jobs[id].createdAt <= jobs[j].createdAt
  }

  class JobStore {
    var jobs: map<nat, Job>
    var attempts: seq<Attempt>

    function View(): Store
      reads this
    {
      Store(jobs, attempts)
    }

    /** The oldest claimable job, if any; ties are broken arbitrarily. */
    method SelectCandidate(now: int) returns (candidate: Option<nat>)
      ensures candidate.Some? ==> Oldest(jobs, now, candidate.value)
      ensures candidate.None? ==> forall id :: id in jobs ==> !Claimable(jobs[id], now)
    {
      candidate := None;
      var rest := jobs.Keys;
      while rest != {}
        invariant rest <= jobs.Keys
        invariant candidate.Some? ==> candidate.value in jobs && Claimable(jobs[candidate.value], now)
        invariant forall j :: j in jobs && j !in rest && Claimable(jobs[j], now) ==>
          candidate.Some? && jobs[candidate.value].createdAt <= jobs[j].createdAt
        decreases rest
      {
        var id :| id in rest;
        rest := rest - {id};
        if Claimable(jobs[id], now) && (candidate.None? || jobs[id].createdAt < jobs[candidate.value].createdAt) {
          candidate := Some(id);
        }
      }
    }

    method ClaimJob(worker: string, leaseMs: int, now: int) returns (claim: Option<ClaimedJob>)
      modifies this
      ensures match claim
        case None => View() == old(View()) && forall id :: id in jobs ==> !Claimable(jobs[id], now)
        case Some(c) =>
          && Oldest(old(jobs), now, c.jobId) && c.attemptId == |old(attempts)|
          && c.reclaimed == (old(jobs)[c.jobId].status == Processing)
          && View() == Claim(old(View()), c.jobId, worker, leaseMs, now)
          && c.jobId in jobs && c.attemptId < |attempts|
          && jobs[c.jobId].lockedBy == Some(worker) && jobs[c.jobId].lockedUntil == Some(now + leaseMs)
          && attempts[c.attemptId]
             == Attempt(c.jobId, worker, old(jobs)[c.jobId].attempts + 1, Claimed, now, None)
    {
      var candidate := SelectCandidate(now);
      if candidate.None? {
        return None;
      }
      var id := candidate.value;
      var job := jobs[id];
      var reclaimed := job.status == Processing;
      jobs := jobs[id := job.(status := Processing, lockedBy := Some(worker), lockedUntil := Some(now + leaseMs),
                              attempts := job.attempts + 1)];
      if reclaimed {
        ExpireOpenAttempts(id, now);
      }
      claim := Some(ClaimedJob(id, |attempts|, reclaimed));
      attempts := attempts + [Attempt(id, worker, jobs[id].attempts, Claimed, now, None)];
    }

    /** UPDATE of the open attempts of one job, row by row. */
    method ExpireOpenAttempts(id: nat, now: int)
      modifies this`attempts
      ensures |attempts| == |old(attempts)|
      ensures forall a :: 0 <= a < |attempts| ==> attempts[a] == Expire(old(attempts)[a], id, now)
    {
      var i := 0;
      while i < |attempts|
        invariant 0 <= i <= |attempts| == |old(attempts)|
        invariant forall a :: 0 <= a < |attempts| ==>
          attempts[a] == if a < i then Expire(old(attempts)[a], id, now) else old(attempts)[a]
      {
        if attempts[i].jobId == id && attempts[i].status == Claimed {
          attempts := attempts[i := attempts[i].(status := Expired, releasedAt := Some(now))];
        }
        i := i + 1;
      }
    }

    method CompleteJob(jobId: nat, attemptId: nat, now: int)
      requires attemptId < |attempts| && attempts[attemptId].jobId == jobId && jobId in jobs
      modifies this
      ensures View() == Complete(old(View()), attemptId, now)
    {
      jobs := jobs[jobId := jobs[jobId].(status := Completed, lockedBy := None, lockedUntil := None)];
      attempts := attempts[attemptId := attempts[attemptId].(status := Succeeded, releasedAt := Some(now))];
    }

    method FailJob(jobId: nat, attemptId: nat, now: int) returns (terminal: bool)
      requires attemptId < |attempts| && attempts[attemptId].jobId == jobId && jobId in jobs
      modifies this
      ensures View() == Fail(old(View()), attemptId, now)
      ensures terminal <==> jobs[jobId].status == Failed
    {
      terminal := jobs[jobId].attempts >= jobs[jobId].maxAttempts;
      var job := jobs[jobId];
      jobs := jobs[jobId :=
                     job.(status := if terminal then Failed else Pending, lockedBy := None, lockedUntil := None)];
      attempts := attempts[attemptId := attempts[attemptId].(status := Errored, releasedAt := Some(now))];
    }
  }

  // ---- The worker's measure ----

  function ClaimsOf(job: Job): nat {
    ClaimsLeft(job.Terminal(), job.attempts, job.maxAttempts)
  }

  function Left(jobs: map<nat, Job>): map<nat, nat> {
    map id | id in jobs :: ClaimsOf(jobs[id])
  }

  function TotalLeft(jobs: map<nat, Job>): nat {
    Total(Left(jobs))
  }

  /** Changing one job changes the sum by that job's difference. */
  lemma TotalLeftUpdate(jobs: map<nat, Job>, after: map<nat, Job>, id: nat)
    requires id in jobs && after.Keys == jobs.Keys && forall j :: j in jobs && j != id ==> after[j] == jobs[j]
    ensures TotalLeft(after) == TotalLeft(jobs) - ClaimsOf(jobs[id]) + ClaimsOf(after[id])
  {
    assert Left(after) == Left(jobs)[id := ClaimsOf(after[id])];
    TotalUpdate(Left(jobs), id, ClaimsOf(after[id]));
  }

  /** One round of the lone worker, claim and finish, uses up one of the job's remaining claims and touches no other
      job. */
  lemma RoundUsesOneClaim(s: Store, id: nat, worker: string, leaseMs: int, now: int, later: int, success: bool)
    requires id in s.jobs && Claimable(s.jobs[id], now)
    ensures var c := Claim(s, id, worker, leaseMs, now);
      && |s.attempts| < |c.attempts| && c.attempts[|s.attempts|].jobId == id
      && var t := if success then Complete(c, |s.attempts|, later) else Fail(c, |s.attempts|, later);
        && t.jobs.Keys == s.jobs.Keys && (forall j :: j in s.jobs && j != id ==> t.jobs[j] == s.jobs[j])
        && ClaimsOf(t.jobs[id]) < ClaimsOf(s.jobs[id])
        && (if success then t.jobs[id].status == Completed
              else t.jobs[id].status == Failed || t.jobs[id].status == Pending)
  {
    ClaimRows(s, id, worker, leaseMs, now);
  }

  /** The three result lists against the table: every claim was finished once, no job was claimed more
      often than it had claims left, and the completed ones are completed. */
  ghost predicate Tally(before: map<nat, Job>, jobs: map<nat, Job>, claimed: seq<nat>, completed: seq<nat>,
                        failedAttempts: seq<nat>) {
    && jobs.Keys == before.Keys
    && |claimed| == |completed| + |failedAttempts|
    && (forall id :: Occurrences(claimed, id) == Occurrences(completed, id) + Occurrences(failedAttempts, id))
    && (forall id :: id in jobs ==> Occurrences(claimed, id) + ClaimsOf(jobs[id]) <= ClaimsOf(before[id]))
    && (forall id :: Occurrences(claimed, id) > 0 ==> id in jobs)
    && (forall id :: Occurrences(completed, id) > 0 ==> id in jobs && jobs[id].status == Completed)
  }

  lemma TallyRound(before: map<nat, Job>, jobs: map<nat, Job>, after: map<nat, Job>,
                   claimed: seq<nat>, completed: seq<nat>, failedAttempts: seq<nat>, id: nat, success: bool)
    requires Tally(before, jobs, claimed, completed, failedAttempts)
    requires id in jobs && after.Keys == jobs.Keys && forall j :: j in jobs && j != id ==> after[j] == jobs[j]
    requires ClaimsOf(after[id]) < ClaimsOf(jobs[id])
    requires success ==> after[id].status == Completed
    ensures Tally(before, after, Pushed(claimed, id), if success then Pushed(completed, id) else completed,
                  if success then failedAttempts else Pushed(failedAttempts, id))
  {
    assert !jobs[id].Terminal();
    hide Pushed, Occurrences;
  }

  /** One worker's whole run, alone: claim, process, finish, until nothing is claimable. It ends for every job table,
      every outcome of every processing, and every passing of time, and is a run of the queue whose claims are all
      this worker's. */
  method RunWorkerUntilEmpty(store: JobStore, workerId: string, leaseMs: int, start: int)
    returns (claimed: seq<nat>, completed: seq<nat>, failedAttempts: seq<nat>, lastClaim: int,
             ghost actions: seq<Action>)
    modifies store
    ensures State(store.View(), lastClaim) == Run(State(old(store.View()), start), actions)
    ensures OwnActions(actions, workerId, leaseMs)
    ensures Tally(old(store.jobs), store.jobs, claimed, completed, failedAttempts)
    ensures |claimed| <= TotalLeft(old(store.jobs))
    ensures start <= lastClaim && forall id :: id in store.jobs ==> !Claimable(store.jobs[id], lastClaim)
  {
    claimed, completed, failedAttempts, actions := [], [], [], [];
    ghost var first := State(store.View(), start);
    var now := start;
    NothingDone(first, workerId, leaseMs);
    hide TotalLeft, Tally, Run, OwnActions, Pushed, AfterRound, Progress, RoundActions;
    while true
      invariant start <= now
      invariant Progress(first, State(store.View(), now), actions, workerId, leaseMs, claimed, completed,
                         failedAttempts)
      decreases TotalLeft(store.jobs)
    {
      ghost var before := State(store.View(), now);
      var id, claimTime, success, finishTime := Round(store, workerId, leaseMs, now);
      now := finishTime;
      if id.None? {
        lastClaim := now;
        actions := LastActions(first, before, actions, now, workerId, leaseMs, claimed, completed, failedAttempts);
        break;
      }
      actions := RoundKeeps(first, before, actions, workerId, leaseMs, claimed, completed, failedAttempts, id.value,
                            claimTime, now, success);
      claimed := Pushed(claimed, id.value);
      if success {
        completed := Pushed(completed, id.value);
      } else {
        failedAttempts := Pushed(failedAttempts, id.value);
      }
    }
  }

  /** What the worker has done since `first`: as a run of the queue, and as its tallies have it. */
  ghost predicate Progress(first: State, at: State, actions: seq<Action>, workerId: string, leaseMs: int,
                           claimed: seq<nat>, completed: seq<nat>, failedAttempts: seq<nat>)
  {
    && at == Run(first, actions) && OwnActions(actions, workerId, leaseMs)
    && Tally(first.store.jobs, at.store.jobs, claimed, completed, failedAttempts)
    && |claimed| + TotalLeft(at.store.jobs) <= TotalLeft(first.store.jobs)
  }

  lemma NothingDone(first: State, workerId: string, leaseMs: int)
    ensures Progress(first, first, [], workerId, leaseMs, [], [], [])
  {
  }

  lemma LastActions(first: State, at: State, actions: seq<Action>, now: int, workerId: string, leaseMs: int,
                    claimed: seq<nat>, completed: seq<nat>, failedAttempts: seq<nat>) returns (more: seq<Action>)
    requires Progress(first, at, actions, workerId, leaseMs, claimed, completed, failedAttempts) && at.clock <= now
    requires forall id :: id in at.store.jobs ==> !Claimable(at.store.jobs[id], now)
    ensures Run(first, more) == State(at.store, now) && OwnActions(more, workerId, leaseMs)
    ensures Tally(first.store.jobs, at.store.jobs, claimed, completed, failedAttempts)
    ensures |claimed| <= TotalLeft(first.store.jobs)
  {
    FoundNothing(first, actions, at, now, workerId, leaseMs);
    more := actions + [ClaimAction(now - at.clock, workerId, leaseMs, 0)];
  }

  lemma RoundKeeps(first: State, at: State, actions: seq<Action>, workerId: string, leaseMs: int, claimed: seq<nat>,
                   completed: seq<nat>, failedAttempts: seq<nat>, id: nat, now: int, later: int, success: bool)
    returns (more: seq<Action>)
    requires Progress(first, at, actions, workerId, leaseMs, claimed, completed, failedAttempts)
    requires at.clock <= now <= later && Oldest(at.store.jobs, now, id)
    ensures var t := AfterRound(at.store, id, workerId, leaseMs, now, later, success);
      && Progress(first, State(t, later), more, workerId, leaseMs, Pushed(claimed, id),
                  if success then Pushed(completed, id) else completed,
                  if success then failedAttempts else Pushed(failedAttempts, id))
      && TotalLeft(t.jobs) < TotalLeft(at.store.jobs)
  {
    var t := AfterRound(at.store, id, workerId, leaseMs, now, later, success);
    more := RoundActions(actions, id, workerId, leaseMs, now - at.clock, later - now, |at.store.attempts|, success);
    RoundRuns(first, actions, at, id, workerId, leaseMs, now, later, success);
    AfterRoundUsesOne(at.store, id, workerId, leaseMs, now, later, success);
    hide TotalLeft, ClaimsOf, AfterRound, Tally, Run, OwnActions, RoundActions;
    TallyRound(first.store.jobs, at.store.jobs, t.jobs, claimed, completed, failedAttempts, id, success);
    TotalLeftUpdate(at.store.jobs, t.jobs, id);
  }

  /** The queue after a claim at `now` and its finish at `later`. */
  function AfterRound(s: Store, id: nat, worker: string, leaseMs: int, now: int, later: int, success: bool): Store
    requires id in s.jobs
  {
    ClaimRows(s, id, worker, leaseMs, now);
    var c := Claim(s, id, worker, leaseMs, now);
    if success then Complete(c, |s.attempts|, later) else Fail(c, |s.attempts|, later)
  }

  /** One round: claim the oldest claimable job; process it, however long that takes and however it goes; complete or
      fail the attempt. */
  method Round(store: JobStore, workerId: string, leaseMs: int, start: int)
    returns (id: Option<nat>, claimTime: int, success: bool, end: int)
    modifies store
    ensures start <= claimTime <= end
    ensures id.None? ==>
      store.View() == old(store.View()) && forall j :: j in store.jobs ==> !Claimable(store.jobs[j], end)
    ensures id.Some? ==>
      && Oldest(old(store.jobs), claimTime, id.value)
      && store.View() == AfterRound(old(store.View()), id.value, workerId, leaseMs, claimTime, end, success)
  {
    claimTime :| start <= claimTime;
    end, success := claimTime, false;
    var claim := store.ClaimJob(workerId, leaseMs, claimTime);
    if claim.None? {
      return None, claimTime, success, end;
    }
    id := Some(claim.value.jobId);
    ClaimRows(old(store.View()), id.value, workerId, leaseMs, claimTime);
    success := *;
    end :| claimTime <= end;
    if success {
      store.CompleteJob(id.value, claim.value.attemptId, end);
    } else {
      var terminal := store.FailJob(id.value, claim.value.attemptId, end);
    }
  }

  lemma AfterRoundUsesOne(s: Store, id: nat, worker: string, leaseMs: int, now: int, later: int, success: bool)
    requires id in s.jobs && Claimable(s.jobs[id], now)
    ensures var t := AfterRound(s, id, worker, leaseMs, now, later, success);
      && t.jobs.Keys == s.jobs.Keys && (forall j :: j in s.jobs && j != id ==> t.jobs[j] == s.jobs[j])
      && ClaimsOf(t.jobs[id]) < ClaimsOf(s.jobs[id])
      && (success ==> t.jobs[id].status == Completed)
  {
    RoundUsesOneClaim(s, id, worker, leaseMs, now, later, success);
  }

  function RoundActions(done: seq<Action>, id: nat, workerId: string, leaseMs: int, waited: nat, took: nat,
                        attempt: nat, success: bool): seq<Action>
  {
    done + [ClaimAction(waited, workerId, leaseMs, id)] + [FinishAction(took, attempt, success)]
  }

  /** Every claim among the actions is this worker's, with its lease. */
  predicate OwnActions(actions: seq<Action>, workerId: string, leaseMs: int) {
    forall k :: 0 <= k < |actions| && actions[k].ClaimAction? ==>
      actions[k].worker == workerId && actions[k].leaseMs == leaseMs
  }

  lemma RunAppend(st: State, actions: seq<Action>, a: Action)
    ensures Run(st, actions + [a]) == Apply(Run(st, actions), a)
  {
    assert (actions + [a])[..|actions|] == actions;
  }

  /** A claim that finds nothing only takes time. */
  lemma FoundNothing(st: State, actions: seq<Action>, at: State, now: int, workerId: string, leaseMs: int)
    requires at == Run(st, actions) && at.clock <= now && OwnActions(actions, workerId, leaseMs)
    requires forall id :: id in at.store.jobs ==> !Claimable(at.store.jobs[id], now)
    ensures var more := actions + [ClaimAction(now - at.clock, workerId, leaseMs, 0)];
      Run(st, more) == State(at.store, now) && OwnActions(more, workerId, leaseMs)
  {
    RunAppend(st, actions, ClaimAction(now - at.clock, workerId, leaseMs, 0));
  }

  /** One round, claim and finish, as two actions of the queue. */
  lemma RoundRuns(st: State, actions: seq<Action>, at: State, id: nat, workerId: string, leaseMs: int, now: int,
                  later: int, success: bool)
    requires at == Run(st, actions) && at.clock <= now <= later && OwnActions(actions, workerId, leaseMs)
    requires id in at.store.jobs && Claimable(at.store.jobs[id], now)
    ensures var more := RoundActions(actions, id, workerId, leaseMs, now - at.clock, later - now, |at.store.attempts|,
                                     success);
      && Run(st, more) == State(AfterRound(at.store, id, workerId, leaseMs, now, later, success), later)
      && OwnActions(more, workerId, leaseMs)
  {
    var claim, finish :=
      ClaimAction(now - at.clock, workerId, leaseMs, id), FinishAction(later - now, |at.store.attempts|, success);
    ClaimRows(at.store, id, workerId, leaseMs, now);
    RunAppend(st, actions, claim);
    RunAppend(st, actions + [claim], finish);
  }

  function Pushed(ids: seq<nat>, id: nat): (r: seq<nat>)
    ensures |r| == |ids| + 1
    ensures forall i :: Occurrences(r, i) == Occurrences(ids, i) + if i == id then 1 else 0
  {
    OccurrencesAppend(ids, id);
    ids + [id]
  }
}
