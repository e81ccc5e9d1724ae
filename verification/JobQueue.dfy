/** The leased job queue: claims, reclaims after lease expiry, retries, and one audit row per claim. */
module JobQueue {
  import opened Wrappers

  datatype JobStatus = Pending | Processing | Completed | Failed

  datatype Job = Job(createdAt: int, status: JobStatus, attempts: nat, maxAttempts: nat,
                     lockedBy: Option<string>, lockedUntil: Option<int>)
  {
    predicate Terminal() {
      status == Completed || status == Failed
    }
  }

  datatype AttemptStatus = Claimed | Succeeded | Errored | Expired

  datatype Attempt = Attempt(jobId: nat, workerId: string, number: nat, status: AttemptStatus,
                             claimedAt: int, releasedAt: Option<int>)

  /** The two tables. An attempt's id is its position in `attempts`. */
  datatype Store = Store(jobs: map<nat, Job>, attempts: seq<Attempt>)

  /** `locked_until < now()` is not true of a NULL. */
  predicate Claimable(job: Job, now: int) {
    job.status == Pending || (job.status == Processing && job.lockedUntil.Some? && job.lockedUntil.value < now)
  }

  function Expire(attempt: Attempt, job: nat, now: int): Attempt {
    if attempt.jobId == job && attempt.status == Claimed
    then attempt.(status := Expired, releasedAt := Some(now))
    else attempt
  }

  /** The claim transaction on the candidate `id`. */
  function Claim(s: Store, id: nat, worker: string, leaseMs: int, now: int): Store
    requires id in s.jobs
  {
    var job := s.jobs[id];
    var earlier :=
      if job.status == Processing
        then seq(|s.attempts|, i requires 0 <= i < |s.attempts| => Expire(s.attempts[i], id, now))
      else s.attempts;
    Store(
      s.jobs[id := job.(status := Processing, lockedBy := Some(worker), lockedUntil := Some(now + leaseMs),
                        attempts := job.attempts + 1)],
      earlier + [Attempt(id, worker, job.attempts + 1, Claimed, now, None)])
  }

  /** `completeJob` and `failJob`, addressed by an attempt a claim has returned. Neither asks who holds the lease. */
  function Complete(s: Store, attempt: nat, now: int): Store
    requires attempt < |s.attempts| && s.attempts[attempt].jobId in s.jobs
  {
    var id := s.attempts[attempt].jobId;
    Store(s.jobs[id := s.jobs[id].(status := Completed, lockedBy := None, lockedUntil := None)],
          s.attempts[attempt := s.attempts[attempt].(status := Succeeded, releasedAt := Some(now))])
  }

  function StatusAfterFailure(job: Job): JobStatus {
    if job.attempts >= job.maxAttempts then Failed else Pending
  }

  function Fail(s: Store, attempt: nat, now: int): Store
    requires attempt < |s.attempts| && s.attempts[attempt].jobId in s.jobs
  {
    var id := s.attempts[attempt].jobId;
    Store(s.jobs[id := s.jobs[id].(status := StatusAfterFailure(s.jobs[id]), lockedBy := None, lockedUntil := None)],
          s.attempts[attempt := s.attempts[attempt].(status := Errored, releasedAt := Some(now))])
  }

  // ---- Runs of any number of workers ----

  /** What one worker does to the queue in one transaction, `elapsed` after the previous one. `SKIP LOCKED`
      may pass over any older candidates, so a claim may take any claimable job. A crashed worker is one
      whose attempt is never finished; a stale worker finishes an attempt after losing it. */
  datatype Action =
    | ClaimAction(elapsed: nat, worker: string, leaseMs: int, job: nat)
    | FinishAction(elapsed: nat, attempt: nat, success: bool)

  datatype State = State(store: Store, clock: int)

  predicate Enabled(st: State, a: Action) {
    match a
    case ClaimAction(elapsed, _, _, id) => id in st.store.jobs && Claimable(st.store.jobs[id], st.clock + elapsed)
    case FinishAction(_, attempt, _) =>
      attempt < |st.store.attempts| && st.store.attempts[attempt].jobId in st.store.jobs
  }

  function Apply(st: State, a: Action): State {
    var now := st.clock + a.elapsed;
    if !Enabled(st, a) then State(st.store, now)
    else match a
      case ClaimAction(_, worker, leaseMs, id) => State(Claim(st.store, id, worker, leaseMs, now), now)
      case FinishAction(_, attempt, success) =>
        State(if success then Complete(st.store, attempt, now) else Fail(st.store, attempt, now), now)
  }

  function Run(st: State, actions: seq<Action>): State {
    if actions == [] then st else Apply(Run(st, actions[..|actions| - 1]), actions[|actions| - 1])
  }

  /** A queue nobody has worked on yet. */
  predicate Fresh(s: Store) {
    s.attempts == [] && forall id :: id in s.jobs ==>
      s.jobs[id].status == Pending && s.jobs[id].attempts == 0 && s.jobs[id].lockedBy == None
  }

  // ---- What holds in every run ----

  function Count(attempts: seq<Attempt>, job: nat): nat {
    if attempts == [] then 0
    else Count(attempts[..|attempts| - 1], job) + if attempts[|attempts| - 1].jobId == job then 1 else 0
  }

  /** Each row carries the number of its job's rows before it, plus one. */
  ghost predicate NumbersCount(attempts: seq<Attempt>) {
    forall a :: 0 <= a < |attempts| ==> attempts[a].number == Count(attempts[..a], attempts[a].jobId) + 1
  }

  /** `attempts` counts the job's audit rows, and the rows carry the numbers they were counted with. */
  ghost predicate Numbered(s: Store) {
    && (forall a :: 0 <= a < |s.attempts| ==> s.attempts[a].jobId in s.jobs)
    && NumbersCount(s.attempts)
    && (forall id :: id in s.jobs ==> s.jobs[id].attempts == Count(s.attempts, id))
  }

  /** Same jobs and numbers row by row, whatever else was updated. */
  predicate SameNumbers(x: seq<Attempt>, y: seq<Attempt>) {
    |x| == |y| && forall a :: 0 <= a < |x| ==> x[a].jobId == y[a].jobId && x[a].number == y[a].number
  }

  lemma {:induction false} CountSame(x: seq<Attempt>, y: seq<Attempt>, job: nat)
    requires SameNumbers(x, y)
    ensures Count(x, job) == Count(y, job)
  {
    if x != [] {
      CountSame(x[..|x| - 1], y[..|y| - 1], job);
    }
  }

  lemma NumberedFrame(s: Store, t: Store)
    requires Numbered(s) && SameNumbers(s.attempts, t.attempts) && t.jobs.Keys == s.jobs.Keys
    requires forall id :: id in s.jobs ==> t.jobs[id].attempts == s.jobs[id].attempts
    ensures Numbered(t)
  {
    forall id | id in t.jobs ensures t.jobs[id].attempts == Count(t.attempts, id) {
      CountSame(s.attempts, t.attempts, id);
    }
    forall a | 0 <= a < |t.attempts| ensures t.attempts[a].number == Count(t.attempts[..a], t.attempts[a].jobId) + 1 {
      CountSame(s.attempts[..a], t.attempts[..a], t.attempts[a].jobId);
    }
  }

  /** What a claim does to the audit rows, row by row. */
  lemma ClaimRows(s: Store, id: nat, worker: string, leaseMs: int, now: int)
    requires id in s.jobs
    ensures var t := Claim(s, id, worker, leaseMs, now);
      && |t.attempts| == |s.attempts| + 1
      && t.attempts[|s.attempts|] == Attempt(id, worker, s.jobs[id].attempts + 1, Claimed, now, None)
      && forall a :: 0 <= a < |s.attempts| ==>
        t.attempts[a] == if s.jobs[id].status == Processing then Expire(s.attempts[a], id, now) else s.attempts[a]
  {
  }

  lemma CountAppended(x: seq<Attempt>, y: seq<Attempt>, job: nat)
    requires |y| == |x| + 1 && SameNumbers(x, y[..|x|])
    ensures Count(y, job) == Count(x, job) + if y[|x|].jobId == job then 1 else 0
  {
    CountSame(x, y[..|x|], job);
  }

  lemma NumbersAppended(x: seq<Attempt>, y: seq<Attempt>)
    requires NumbersCount(x) && |y| == |x| + 1 && SameNumbers(x, y[..|x|])
    requires y[|x|].number == Count(x, y[|x|].jobId) + 1
    ensures NumbersCount(y)
  {
    forall a | 0 <= a < |y| ensures y[a].number == Count(y[..a], y[a].jobId) + 1 {
      if a < |x| {
        assert SameNumbers(x[..a], y[..a]) && y[..|x|][a] == y[a];
        CountSame(x[..a], y[..a], y[a].jobId);
      } else {
        CountSame(x, y[..a], y[a].jobId);
      }
      hide Count;
    }
  }

  lemma ClaimNumbered(s: Store, id: nat, worker: string, leaseMs: int, now: int)
    requires Numbered(s) && id in s.jobs
    ensures Numbered(Claim(s, id, worker, leaseMs, now))
  {
    var t := Claim(s, id, worker, leaseMs, now);
    ClaimRows(s, id, worker, leaseMs, now);
    assert forall j :: j in t.jobs <==> j in s.jobs;
    assert forall j :: j in t.jobs ==> t.jobs[j].attempts == s.jobs[j].attempts + if j == id then 1 else 0;
    assert SameNumbers(s.attempts, t.attempts[..|s.attempts|]);
    NumbersAppended(s.attempts, t.attempts);
    forall j | j in t.jobs ensures t.jobs[j].attempts == Count(t.attempts, j) {
      CountAppended(s.attempts, t.attempts, j);
    }
    hide Claim, Count, NumbersCount;
  }

  lemma FinishNumbered(s: Store, attempt: nat, success: bool, now: int)
    requires Numbered(s) && attempt < |s.attempts| && s.attempts[attempt].jobId in s.jobs
    ensures Numbered(if success then Complete(s, attempt, now) else Fail(s, attempt, now))
  {
    var t := if success then Complete(s, attempt, now) else Fail(s, attempt, now);
    assert SameNumbers(s.attempts, t.attempts);
    assert forall id :: id in s.jobs ==> id in t.jobs && t.jobs[id].attempts == s.jobs[id].attempts;
    hide Numbered, SameNumbers, Complete, Fail;
    NumberedFrame(s, t);
  }

  lemma ApplyNumbered(st: State, a: Action)
    requires Numbered(st.store)
    ensures Numbered(Apply(st, a).store)
  {
    hide Numbered, Claim, Complete, Fail;
    if Enabled(st, a) {
      match a
      case ClaimAction(_, worker, leaseMs, id) => ClaimNumbered(st.store, id, worker, leaseMs, st.clock + a.elapsed);
      case FinishAction(_, attempt, success) => FinishNumbered(st.store, attempt, success, st.clock + a.elapsed);
    }
  }

  lemma {:induction false} RunNumbered(st: State, actions: seq<Action>)
    requires Fresh(st.store)
    ensures Numbered(Run(st, actions).store)
  {
    if actions != [] {
      RunNumbered(st, actions[..|actions| - 1]);
      ApplyNumbered(Run(st, actions[..|actions| - 1]), actions[|actions| - 1]);
    }
  }

  lemma {:induction false} CountMonotone(attempts: seq<Attempt>, a: nat, b: nat, job: nat)
    requires a <= b <= |attempts|
    ensures Count(attempts[..a], job) <= Count(attempts[..b], job)
  {
    if a < b {
      CountMonotone(attempts, a, b - 1, job);
      assert attempts[..b][..b - 1] == attempts[..b - 1];
    }
  }

  /** The row with the k-th number exists. */
  lemma {:induction false} NumberExists(s: Store, n: nat, job: nat, k: nat) returns (a: nat)
    requires Numbered(s) && n <= |s.attempts| && 1 <= k <= Count(s.attempts[..n], job)
    ensures a < n && s.attempts[a].jobId == job && s.attempts[a].number == k
  {
    assert s.attempts[..n][..n - 1] == s.attempts[..n - 1];
    if s.attempts[n - 1].jobId == job && Count(s.attempts[..n - 1], job) == k - 1 {
      a := n - 1;
    } else {
      a := NumberExists(s, n - 1, job, k);
    }
  }

  predicate IsAttempt(s: Store, a: nat, job: nat, k: nat) {
    a < |s.attempts| && s.attempts[a].jobId == job && s.attempts[a].number == k
  }

  ghost predicate HasNumber(s: Store, job: nat, k: nat) {
    exists a: nat :: IsAttempt(s, a, job, k)
  }

  /** The job's audit rows carry the numbers 1 to `attempts`, each once, in the order of the claims. */
  ghost predicate NumberedOnce(s: Store, job: nat)
    requires job in s.jobs
  {
    && s.jobs[job].attempts == Count(s.attempts, job)
    && (forall a: nat, k: nat :: IsAttempt(s, a, job, k) ==> 1 <= k <= s.jobs[job].attempts)
    && (forall k: nat :: 1 <= k <= s.jobs[job].attempts ==> HasNumber(s, job, k))
    && (forall a: nat, b: nat, k: nat, l: nat :: a < b && IsAttempt(s, a, job, k) && IsAttempt(s, b, job, l) ==> k < l)
  }

  lemma NumbersOrdered(s: Store, a: nat, b: nat, job: nat)
    requires Numbered(s) && a < b < |s.attempts| && s.attempts[a].jobId == job && s.attempts[b].jobId == job
    ensures s.attempts[a].number < s.attempts[b].number
  {
    CountMonotone(s.attempts, a + 1, b, job);
    assert s.attempts[..a + 1][..a] == s.attempts[..a];
  }

  lemma NumberInRange(s: Store, a: nat)
    requires Numbered(s) && a < |s.attempts|
    ensures 1 <= s.attempts[a].number <= s.jobs[s.attempts[a].jobId].attempts
  {
    CountMonotone(s.attempts, a + 1, |s.attempts|, s.attempts[a].jobId);
    assert s.attempts[..a + 1][..a] == s.attempts[..a] && s.attempts[..|s.attempts|] == s.attempts;
  }

  lemma NumberedImpliesOnce(s: Store, job: nat)
    requires Numbered(s) && job in s.jobs
    ensures NumberedOnce(s, job)
  {
    forall a: nat, k: nat | IsAttempt(s, a, job, k) ensures 1 <= k <= s.jobs[job].attempts {
      NumberInRange(s, a);
    }
    forall k: nat | 1 <= k <= s.jobs[job].attempts ensures HasNumber(s, job, k) {
      assert s.attempts[..|s.attempts|] == s.attempts;
      var a := NumberExists(s, |s.attempts|, job, k);
      assert IsAttempt(s, a, job, k);
    }
    forall a: nat, b: nat, k: nat, l: nat | a < b && IsAttempt(s, a, job, k) && IsAttempt(s, b, job, l) ensures k < l {
      NumbersOrdered(s, a, b, job);
    }
  }

  /** In every run, stale workers included: a job's `attempts` is its number of audit rows, and they are
      numbered 1 to `attempts`, each number once, in the order of the claims. */
  lemma AttemptsNumberedOnce(st: State, actions: seq<Action>, job: nat)
    requires Fresh(st.store) && job in Run(st, actions).store.jobs
    ensures NumberedOnce(Run(st, actions).store, job)
  {
    RunNumbered(st, actions);
    NumberedImpliesOnce(Run(st, actions).store, job);
  }

  // ---- What holds while nobody finishes an attempt it has lost ----

  predicate Holds(s: Store, a: nat, job: nat) {
    a < |s.attempts| && s.attempts[a].jobId == job && s.attempts[a].status == Claimed
  }

  /** A job that is 'processing' has a 'claimed' row, made by `locked_by`. */
  ghost predicate ProcessingOpen(s: Store) {
    forall id :: id in s.jobs && s.jobs[id].status == Processing ==>
      exists i: nat :: Holds(s, i, id) && s.jobs[id].lockedBy == Some(s.attempts[i].workerId)
  }

  lemma ClaimKeepsProcessingOpen(s: Store, id: nat, worker: string, leaseMs: int, now: int)
    requires ProcessingOpen(s) && id in s.jobs
    ensures ProcessingOpen(Claim(s, id, worker, leaseMs, now))
  {
    var t, n := Claim(s, id, worker, leaseMs, now), |s.attempts|;
    ClaimRows(s, id, worker, leaseMs, now);
    assert forall j :: j in t.jobs && j != id ==> t.jobs[j] == s.jobs[j];
    assert t.jobs[id].lockedBy == Some(worker) && Holds(t, n, id);
    hide Claim;
    forall j | j in t.jobs && t.jobs[j].status == Processing && j != id
      ensures exists i: nat :: Holds(t, i, j) && t.jobs[j].lockedBy == Some(t.attempts[i].workerId)
    {
      var i: nat :| Holds(s, i, j) && s.jobs[j].lockedBy == Some(s.attempts[i].workerId);
      assert Holds(t, i, j);
    }
  }

  lemma FinishKeepsProcessingOpen(st: State, elapsed: nat, attempt: nat, success: bool)
    requires ProcessingOpen(st.store) && Enabled(st, FinishAction(elapsed, attempt, success))
    ensures ProcessingOpen(Apply(st, FinishAction(elapsed, attempt, success)).store)
  {
    var s, t := st.store, Apply(st, FinishAction(elapsed, attempt, success)).store;
    forall j | j in t.jobs && t.jobs[j].status == Processing
      ensures exists i: nat :: Holds(t, i, j) && t.jobs[j].lockedBy == Some(t.attempts[i].workerId)
    {
      var i: nat :| Holds(s, i, j) && s.jobs[j].lockedBy == Some(s.attempts[i].workerId);
      assert Holds(t, i, j);
    }
  }

  /** 'processing' means exactly one open attempt, made by `locked_by`. */
  ghost predicate OneHolder(s: Store) {
    && (forall a :: 0 <= a < |s.attempts| ==> s.attempts[a].jobId in s.jobs)
    && (forall a :: 0 <= a < |s.attempts| && s.attempts[a].status == Claimed ==>
          s.jobs[s.attempts[a].jobId].status == Processing)
    && ProcessingOpen(s)
    && (forall id :: id in s.jobs && s.jobs[id].status != Processing ==> s.jobs[id].lockedBy == None)
  }

  /** Claim windows [claimed_at, released_at) of one job follow each other; an open one is the last. */
  ghost predicate WindowsApart(s: Store) {
    forall a, b :: 0 <= a < b < |s.attempts| && s.attempts[a].jobId == s.attempts[b].jobId ==>
      s.attempts[a].status != Claimed && s.attempts[a].releasedAt.Some?
        && s.attempts[a].releasedAt.value <= s.attempts[b].claimedAt
  }

  ghost predicate PastTimes(st: State) {
    forall a :: 0 <= a < |st.store.attempts| ==>
      && st.store.attempts[a].claimedAt <= st.clock
      && (st.store.attempts[a].status == Claimed <==> st.store.attempts[a].releasedAt == None)
      && (st.store.attempts[a].releasedAt.Some? ==>
            st.store.attempts[a].claimedAt <= st.store.attempts[a].releasedAt.value <= st.clock)
  }

  ghost predicate Orderly(st: State) {
    OneHolder(st.store) && WindowsApart(st.store) && PastTimes(st)
  }

  predicate TerminalKept(s: Store, t: Store) {
    forall id :: id in s.jobs && s.jobs[id].Terminal() ==> id in t.jobs && t.jobs[id].status == s.jobs[id].status
  }

  /** The worker's own attempt row is still 'claimed' when it finishes. */
  predicate Guarded(st: State, a: Action) {
    a.FinishAction? && Enabled(st, a) ==> st.store.attempts[a.attempt].status == Claimed
  }

  predicate GuardedRun(st: State, actions: seq<Action>) {
    actions == [] ||
    (GuardedRun(st, actions[..|actions| - 1]) && Guarded(Run(st, actions[..|actions| - 1]), actions[|actions| - 1]))
  }

  lemma ClaimKeepsHolders(s: Store, id: nat, worker: string, leaseMs: int, now: int)
    requires OneHolder(s) && id in s.jobs
    ensures OneHolder(Claim(s, id, worker, leaseMs, now))
  {
    var t := Claim(s, id, worker, leaseMs, now);
    ClaimRows(s, id, worker, leaseMs, now);
    ClaimKeepsProcessingOpen(s, id, worker, leaseMs, now);
    assert forall j :: j in t.jobs && j != id ==> t.jobs[j] == s.jobs[j];
    assert t.jobs[id].status == Processing && t.jobs[id].lockedBy == Some(worker);
    hide Claim, ProcessingOpen;
  }

  lemma ClaimKeepsWindows(st: State, id: nat, worker: string, leaseMs: int, now: int)
    requires Orderly(st) && id in st.store.jobs && st.clock <= now
    ensures WindowsApart(Claim(st.store, id, worker, leaseMs, now))
    ensures PastTimes(State(Claim(st.store, id, worker, leaseMs, now), now))
  {
    ClaimRows(st.store, id, worker, leaseMs, now);
    hide Claim;
  }

  lemma ClaimKeepsTerminal(s: Store, id: nat, worker: string, leaseMs: int, now: int)
    requires id in s.jobs && Claimable(s.jobs[id], now)
    ensures TerminalKept(s, Claim(s, id, worker, leaseMs, now))
  {
  }

  lemma ClaimOrderly(st: State, elapsed: nat, worker: string, leaseMs: int, id: nat)
    requires Orderly(st) && Enabled(st, ClaimAction(elapsed, worker, leaseMs, id))
    ensures var next := Apply(st, ClaimAction(elapsed, worker, leaseMs, id));
      Orderly(next) && TerminalKept(st.store, next.store)
  {
    ClaimKeepsHolders(st.store, id, worker, leaseMs, st.clock + elapsed);
    ClaimKeepsWindows(st, id, worker, leaseMs, st.clock + elapsed);
    ClaimKeepsTerminal(st.store, id, worker, leaseMs, st.clock + elapsed);
    hide Claim, OneHolder, WindowsApart, PastTimes, TerminalKept;
  }

  /** A finish leaves no job of another worker without its holder, if its own job was not another's. */
  lemma FinishKeepsHolders(st: State, elapsed: nat, attempt: nat, success: bool)
    requires OneHolder(st.store) && Enabled(st, FinishAction(elapsed, attempt, success))
    requires forall a: nat :: Holds(st.store, a, st.store.attempts[attempt].jobId) ==> a == attempt
    ensures OneHolder(Apply(st, FinishAction(elapsed, attempt, success)).store)
  {
    FinishKeepsProcessingOpen(st, elapsed, attempt, success);
    var s, t := st.store, Apply(st, FinishAction(elapsed, attempt, success)).store;
    forall a: nat | a < |t.attempts| && t.attempts[a].status == Claimed
      ensures t.attempts[a].jobId in t.jobs && t.jobs[t.attempts[a].jobId].status == Processing
    {
      assert Holds(s, a, t.attempts[a].jobId);
    }
    hide ProcessingOpen;
  }

  lemma FinishGuardedOrderly(st: State, elapsed: nat, attempt: nat, success: bool)
    requires Orderly(st) && Enabled(st, FinishAction(elapsed, attempt, success))
      && st.store.attempts[attempt].status == Claimed
    ensures var next := Apply(st, FinishAction(elapsed, attempt, success));
      Orderly(next) && TerminalKept(st.store, next.store)
  {
    forall a: nat | Holds(st.store, a, st.store.attempts[attempt].jobId) ensures a == attempt {
      assert !(a < attempt) && !(attempt < a);
    }
    FinishKeepsHolders(st, elapsed, attempt, success);
    hide OneHolder;
    assert TerminalKept(st.store, Apply(st, FinishAction(elapsed, attempt, success)).store) by {
      TerminalKeptIff(st, FinishAction(elapsed, attempt, success));
    }
  }

  lemma {:induction false} GuardedRunOrderly(st: State, actions: seq<Action>)
    requires Fresh(st.store) && GuardedRun(st, actions)
    ensures Orderly(Run(st, actions))
  {
    if actions != [] {
      GuardedRunOrderly(st, actions[..|actions| - 1]);
      GuardedStep(Run(st, actions[..|actions| - 1]), actions[|actions| - 1]);
    }
  }

  lemma GuardedStep(st: State, a: Action)
    requires Orderly(st) && Guarded(st, a)
    ensures Orderly(Apply(st, a)) && TerminalKept(st.store, Apply(st, a).store)
  {
    if Enabled(st, a) {
      match a
      case ClaimAction(elapsed, worker, leaseMs, id) => ClaimOrderly(st, elapsed, worker, leaseMs, id);
      case FinishAction(elapsed, attempt, success) => FinishGuardedOrderly(st, elapsed, attempt, success);
    }
  }

  /** The job is 'processing' exactly when it has an open attempt, which is then its only open one, its
      latest, and made by `locked_by`. */
  ghost predicate Exclusive(s: Store, job: nat)
    requires job in s.jobs
  {
    && (s.jobs[job].status == Processing <==> exists a: nat :: Holds(s, a, job))
    && (s.jobs[job].lockedBy.Some? <==> s.jobs[job].status == Processing)
    && (forall a: nat :: Holds(s, a, job) ==>
          s.jobs[job].lockedBy == Some(s.attempts[a].workerId) && s.attempts[a].number == s.jobs[job].attempts)
    && (forall a: nat, b: nat :: Holds(s, a, job) && Holds(s, b, job) ==> a == b)
  }

  lemma OrderlyExclusive(st: State, job: nat)
    requires Orderly(st) && Numbered(st.store) && job in st.store.jobs
    ensures Exclusive(st.store, job)
  {
    var s := st.store;
    forall a: nat, b: nat | Holds(s, a, job) && Holds(s, b, job) ensures a == b {
      assert !(a < b) && !(b < a);
    }
    forall a: nat | Holds(s, a, job)
      ensures s.jobs[job].lockedBy == Some(s.attempts[a].workerId) && s.attempts[a].number == s.jobs[job].attempts
    {
      var b: nat :| Holds(s, b, job) && s.jobs[job].lockedBy == Some(s.attempts[b].workerId);
      assert a == b;
      CountAfterLast(s.attempts, a, |s.attempts|, job);
      assert s.attempts[..|s.attempts|] == s.attempts;
    }
  }

  /** While workers finish only attempts that are still theirs, every job has at most one worker at a time,
      and no two claim windows of a job overlap. */
  lemma GuardedRunExclusive(st: State, actions: seq<Action>, job: nat)
    requires Fresh(st.store) && GuardedRun(st, actions) && job in Run(st, actions).store.jobs
    ensures Exclusive(Run(st, actions).store, job) && WindowsApart(Run(st, actions).store)
  {
    hide Run, Exclusive, OneHolder, WindowsApart, PastTimes, Numbered;
    GuardedRunOrderly(st, actions);
    RunNumbered(st, actions);
    OrderlyExclusive(Run(st, actions), job);
  }

  /** A row that no other row of its job follows carries the job's row count as its number. */
  lemma {:induction false} CountAfterLast(attempts: seq<Attempt>, a: nat, n: nat, job: nat)
    requires a < n <= |attempts| && attempts[a].jobId == job
    requires forall b :: a < b < n ==> attempts[b].jobId != job
    ensures Count(attempts[..n], job) == Count(attempts[..a], job) + 1
  {
    assert attempts[..n][..n - 1] == attempts[..n - 1];
    if n - 1 > a {
      CountAfterLast(attempts, a, n - 1, job);
    }
  }

  /** 'completed' and 'failed' are never left in a guarded run. */
  lemma {:induction false} GuardedRunTerminal(st: State, actions: seq<Action>, more: seq<Action>)
    requires Fresh(st.store) && GuardedRun(st, actions + more)
    ensures TerminalKept(Run(st, actions).store, Run(st, actions + more).store)
  {
    if more == [] {
      assert actions + more == actions;
    } else {
      var all := actions + more;
      assert all[..|all| - 1] == actions + more[..|more| - 1];
      GuardedRunTerminal(st, actions, more[..|more| - 1]);
      GuardedRunOrderly(st, all[..|all| - 1]);
      GuardedStep(Run(st, all[..|all| - 1]), all[|all| - 1]);
    }
  }

  // ---- Exactly when an unguarded finish is harmless ----

  /** Finishing attempt `a` now breaks nothing: it is still open; or its job is not being processed, is not
      moved out of a terminal status, and has no attempt claimed before now after this one. */
  predicate Harmless(st: State, elapsed: nat, attempt: nat, success: bool)
    requires Enabled(st, FinishAction(elapsed, attempt, success))
  {
    var s := st.store;
    var job := s.jobs[s.attempts[attempt].jobId];
    || s.attempts[attempt].status == Claimed
    || (&& job.status != Processing
        && (job.Terminal() ==> job.status == if success then Completed else StatusAfterFailure(job))
        && forall b :: attempt < b < |s.attempts| && s.attempts[b].jobId == s.attempts[attempt].jobId ==>
             st.clock + elapsed <= s.attempts[b].claimedAt)
  }

  lemma HarmlessFinish(st: State, elapsed: nat, attempt: nat, success: bool)
    requires Orderly(st) && Enabled(st, FinishAction(elapsed, attempt, success))
      && Harmless(st, elapsed, attempt, success)
    ensures var next := Apply(st, FinishAction(elapsed, attempt, success));
      Orderly(next) && TerminalKept(st.store, next.store)
  {
    if st.store.attempts[attempt].status == Claimed {
      FinishGuardedOrderly(st, elapsed, attempt, success);
    } else {
      FinishKeepsHolders(st, elapsed, attempt, success);
      hide OneHolder;
      TerminalKeptIff(st, FinishAction(elapsed, attempt, success));
    }
  }

  lemma HarmfulFinish(st: State, elapsed: nat, attempt: nat, success: bool)
    requires Orderly(st) && Enabled(st, FinishAction(elapsed, attempt, success))
      && !Harmless(st, elapsed, attempt, success)
    ensures var next := Apply(st, FinishAction(elapsed, attempt, success));
      !(Orderly(next) && TerminalKept(st.store, next.store))
  {
    var s, next := st.store, Apply(st, FinishAction(elapsed, attempt, success));
    var t, id := next.store, st.store.attempts[attempt].jobId;
    if s.jobs[id].status == Processing {
      var a: nat :| Holds(s, a, id) && s.jobs[id].lockedBy == Some(s.attempts[a].workerId);
      assert t.attempts[a].status == Claimed && t.jobs[id].status != Processing;
    } else if s.jobs[id].Terminal()
        && s.jobs[id].status != (if success then Completed else StatusAfterFailure(s.jobs[id])) {
      assert !TerminalKept(s, t);
    } else {
      var b :| attempt < b < |s.attempts| && s.attempts[b].jobId == id && s.attempts[b].claimedAt < next.clock;
      assert t.attempts[attempt].releasedAt == Some(next.clock) && t.attempts[b].claimedAt == s.attempts[b].claimedAt;
      assert !WindowsApart(t);
    }
  }

  /** `completeJob` and `failJob` keep the queue orderly and terminal statuses final if and only if this holds. */
  lemma FinishSafeIffHarmless(st: State, elapsed: nat, attempt: nat, success: bool)
    requires Orderly(st) && Enabled(st, FinishAction(elapsed, attempt, success))
    ensures var next := Apply(st, FinishAction(elapsed, attempt, success));
      Orderly(next) && TerminalKept(st.store, next.store) <==> Harmless(st, elapsed, attempt, success)
  {
    if Harmless(st, elapsed, attempt, success) {
      HarmlessFinish(st, elapsed, attempt, success);
    } else {
      HarmfulFinish(st, elapsed, attempt, success);
    }
  }

  /** Every finish of the run was harmless when it ran. */
  predicate AllHarmless(st: State, actions: seq<Action>) {
    actions == [] ||
    var prefix, a := actions[..|actions| - 1], actions[|actions| - 1];
    && AllHarmless(st, prefix)
    && (a.FinishAction? && Enabled(Run(st, prefix), a) ==> Harmless(Run(st, prefix), a.elapsed, a.attempt, a.success))
  }

  /** The queue was orderly all along, and no step of the run left a terminal status. */
  ghost predicate OrderlyThroughout(st: State, actions: seq<Action>) {
    && Orderly(Run(st, actions))
    && (actions == [] ||
        var prefix := actions[..|actions| - 1];
        OrderlyThroughout(st, prefix) && TerminalKept(Run(st, prefix).store, Run(st, actions).store))
  }

  lemma StepSafeIff(st: State, a: Action)
    requires Orderly(st)
    ensures Orderly(Apply(st, a)) && TerminalKept(st.store, Apply(st, a).store)
      <==> (a.FinishAction? && Enabled(st, a) ==> Harmless(st, a.elapsed, a.attempt, a.success))
  {
    if a.FinishAction? && Enabled(st, a) {
      FinishSafeIffHarmless(st, a.elapsed, a.attempt, a.success);
    } else {
      GuardedStep(st, a);
    }
  }

  /** Whole runs, stale workers included, keep the queue orderly and terminal statuses final if and only if every
      `completeJob` and `failJob` was harmless when it ran. */
  lemma {:induction false} OrderlyThroughoutIffAllHarmless(st: State, actions: seq<Action>)
    requires Fresh(st.store)
    ensures OrderlyThroughout(st, actions) <==> AllHarmless(st, actions)
  {
    if actions != [] {
      var prefix, a := actions[..|actions| - 1], actions[|actions| - 1];
      OrderlyThroughoutIffAllHarmless(st, prefix);
      if OrderlyThroughout(st, prefix) {
        StepSafeIff(Run(st, prefix), a);
      }
      assert Run(st, actions) == Apply(Run(st, prefix), a);
    }
  }

  // ---- Exactly when each promise of the audit trail holds ----

  /** At most one 'claimed' row per job. */
  ghost predicate OneOpen(s: Store) {
    forall a: nat, b: nat, job: nat :: Holds(s, a, job) && Holds(s, b, job) ==> a == b
  }

  /** The job is not 'processing', so its claim expires no rows, and yet it has a 'claimed' row. */
  ghost predicate ClaimsOverOpenRow(st: State, a: Action) {
    && a.ClaimAction? && Enabled(st, a) && st.store.jobs[a.job].status != Processing
    && exists i: nat :: Holds(st.store, i, a.job)
  }

  lemma ClaimKeepsOneOpen(st: State, a: Action)
    requires OneOpen(st.store) && a.ClaimAction? && Enabled(st, a) && !ClaimsOverOpenRow(st, a)
    ensures OneOpen(Apply(st, a).store)
  {
    var s, t := st.store, Apply(st, a).store;
    ClaimRows(s, a.job, a.worker, a.leaseMs, st.clock + a.elapsed);
    forall i: nat, job: nat | Holds(t, i, job)
      ensures if job == a.job then i == |s.attempts| else Holds(s, i, job)
    {
      assert i < |s.attempts| ==> Holds(s, i, job);
      assert s.jobs[a.job].status != Processing ==> !Holds(s, i, a.job);
      hide OneOpen, Claim;
    }
    hide Claim, Holds;
  }

  /** A step keeps at most one 'claimed' row per job if and only if it is not a claim over an open row. */
  lemma OneOpenKeptIff(st: State, a: Action)
    requires OneOpen(st.store)
    ensures OneOpen(Apply(st, a).store) <==> !ClaimsOverOpenRow(st, a)
  {
    var s, t := st.store, Apply(st, a).store;
    if ClaimsOverOpenRow(st, a) {
      ClaimRows(s, a.job, a.worker, a.leaseMs, st.clock + a.elapsed);
      var i: nat :| Holds(s, i, a.job);
      assert Holds(t, i, a.job) && Holds(t, |s.attempts|, a.job);
    } else if a.ClaimAction? && Enabled(st, a) {
      ClaimKeepsOneOpen(st, a);
    } else {
      assert forall i: nat, job: nat :: Holds(t, i, job) ==> Holds(s, i, job);
    }
  }

  ghost predicate OneOpenThroughout(st: State, actions: seq<Action>) {
    OneOpen(Run(st, actions).store) && (actions == [] || OneOpenThroughout(st, actions[..|actions| - 1]))
  }

  ghost predicate NoClaimOverOpenRow(st: State, actions: seq<Action>) {
    actions == [] ||
    var prefix := actions[..|actions| - 1];
    NoClaimOverOpenRow(st, prefix) && !ClaimsOverOpenRow(Run(st, prefix), actions[|actions| - 1])
  }

  /** In whole runs, stale workers included, every job has at most one 'claimed' row at every instant if and only if
      no claim took a job that was not 'processing' and still had one. */
  lemma {:induction false} OneOpenThroughoutIff(st: State, actions: seq<Action>)
    requires Fresh(st.store)
    ensures OneOpenThroughout(st, actions) <==> NoClaimOverOpenRow(st, actions)
  {
    if actions != [] {
      var prefix, a := actions[..|actions| - 1], actions[|actions| - 1];
      OneOpenThroughoutIff(st, prefix);
      if OneOpenThroughout(st, prefix) {
        OneOpenKeptIff(Run(st, prefix), a);
      }
      assert Run(st, actions) == Apply(Run(st, prefix), a);
      hide Apply, OneOpen, ClaimsOverOpenRow;
      assert OneOpenThroughout(st, actions) <==> NoClaimOverOpenRow(st, actions);
    }
  }

  /** The finish writes another status over a terminal one. */
  predicate Reopens(st: State, a: Action) {
    a.FinishAction? && Enabled(st, a) &&
    var job := st.store.jobs[st.store.attempts[a.attempt].jobId];
    job.Terminal() && job.status != if a.success then Completed else StatusAfterFailure(job)
  }

  /** A step keeps terminal statuses if and only if it is not a finish that writes another status over one. */
  lemma TerminalKeptIff(st: State, a: Action)
    ensures TerminalKept(st.store, Apply(st, a).store) <==> !Reopens(st, a)
  {
    if Reopens(st, a) {
      assert Apply(st, a).store.jobs[st.store.attempts[a.attempt].jobId].status
          != st.store.jobs[st.store.attempts[a.attempt].jobId].status;
    }
  }

  predicate TerminalThroughout(st: State, actions: seq<Action>) {
    actions == [] ||
    var prefix := actions[..|actions| - 1];
    TerminalThroughout(st, prefix) && TerminalKept(Run(st, prefix).store, Run(st, actions).store)
  }

  predicate NoneReopens(st: State, actions: seq<Action>) {
    actions == [] ||
    var prefix := actions[..|actions| - 1];
    NoneReopens(st, prefix) && !Reopens(Run(st, prefix), actions[|actions| - 1])
  }

  /** 'completed' and 'failed' are never left in a run if and only if no finish wrote another status over one. */
  lemma {:induction false} TerminalThroughoutIff(st: State, actions: seq<Action>)
    ensures TerminalThroughout(st, actions) <==> NoneReopens(st, actions)
  {
    if actions != [] {
      var prefix, a := actions[..|actions| - 1], actions[|actions| - 1];
      TerminalThroughoutIff(st, prefix);
      TerminalKeptIff(Run(st, prefix), a);
    }
  }

  /** In every run, stale workers included, a job that is 'processing' has a 'claimed' row made by `locked_by`. */
  lemma {:induction false} RunProcessingOpen(st: State, actions: seq<Action>)
    requires Fresh(st.store)
    ensures ProcessingOpen(Run(st, actions).store)
  {
    if actions != [] {
      var mid, a := Run(st, actions[..|actions| - 1]), actions[|actions| - 1];
      RunProcessingOpen(st, actions[..|actions| - 1]);
      if Enabled(mid, a) {
        match a
        case ClaimAction(elapsed, worker, leaseMs, id) =>
          ClaimKeepsProcessingOpen(mid.store, id, worker, leaseMs, mid.clock + elapsed);
        case FinishAction(elapsed, attempt, success) => FinishKeepsProcessingOpen(mid, elapsed, attempt, success);
      }
    }
  }

  /** An 'expired' audit row is not touched again. */
  ghost predicate ExpiredKept(s: Store, t: Store) {
    forall i :: 0 <= i < |s.attempts| && s.attempts[i].status == Expired ==>
      i < |t.attempts| && t.attempts[i] == s.attempts[i]
  }

  /** A step leaves 'expired' rows alone if and only if it does not finish one of them. */
  lemma ExpiredKeptIff(st: State, a: Action)
    ensures ExpiredKept(st.store, Apply(st, a).store)
      <==> !(a.FinishAction? && Enabled(st, a) && st.store.attempts[a.attempt].status == Expired)
  {
    if Enabled(st, a) {
      match a
      case ClaimAction(elapsed, worker, leaseMs, id) => ClaimRows(st.store, id, worker, leaseMs, st.clock + elapsed);
      case FinishAction(_, attempt, success) =>
        assert Apply(st, a).store.attempts[attempt].status == if success then Succeeded else Errored;
    }
  }

  ghost predicate ExpiredThroughout(st: State, actions: seq<Action>) {
    actions == [] ||
    var prefix := actions[..|actions| - 1];
    ExpiredThroughout(st, prefix) && ExpiredKept(Run(st, prefix).store, Run(st, actions).store)
  }

  predicate NoneFinishesExpired(st: State, actions: seq<Action>) {
    actions == [] ||
    var prefix, a := actions[..|actions| - 1], actions[|actions| - 1];
    && NoneFinishesExpired(st, prefix)
    && !(a.FinishAction? && Enabled(Run(st, prefix), a) && Run(st, prefix).store.attempts[a.attempt].status == Expired)
  }

  /** An 'expired' row is never touched again in a run if and only if no finish came for one. */
  lemma {:induction false} ExpiredThroughoutIff(st: State, actions: seq<Action>)
    ensures ExpiredThroughout(st, actions) <==> NoneFinishesExpired(st, actions)
  {
    if actions != [] {
      var prefix, a := actions[..|actions| - 1], actions[|actions| - 1];
      ExpiredThroughoutIff(st, prefix);
      ExpiredKeptIff(Run(st, prefix), a);
    }
  }

  /** The guard is needed: from any state with a pending job that has attempts to spare, let worker A claim it,
      B reclaim it after A's lease and complete it; A's late failure then takes the completed job back to 'pending'. */
  lemma StaleWorkerReopensJob(st: State, job: nat, a: string, b: string, leaseMs: nat, wait: nat)
    requires job in st.store.jobs && st.store.jobs[job].status == Pending
    requires leaseMs < wait && st.store.jobs[job].attempts + 2 < st.store.jobs[job].maxAttempts
    ensures var n := |st.store.attempts|;
      var claimed := Apply(st, ClaimAction(0, a, leaseMs, job));
      var reclaimed := Apply(claimed, ClaimAction(wait, b, leaseMs, job));
      var completed := Apply(reclaimed, FinishAction(0, n + 1, true));
      var undone := Apply(completed, FinishAction(0, n, false));
      && job in completed.store.jobs && completed.store.jobs[job].status == Completed
      && job in undone.store.jobs && undone.store.jobs[job].status == Pending
  {
    ClaimRows(st.store, job, a, leaseMs, st.clock);
    var claimed := Apply(st, ClaimAction(0, a, leaseMs, job));
    ClaimRows(claimed.store, job, b, leaseMs, st.clock + wait);
  }

  /** Nor is there always one 'claimed' row per job at most: A claims, B reclaims after A's lease, A fails late and
      so puts the job back to 'pending', and C claims it without expiring B's row. */
  lemma StaleWorkerLeavesTwoClaimed(st: State, job: nat, a: string, b: string, c: string, leaseMs: nat, wait: nat)
    requires job in st.store.jobs && st.store.jobs[job].status == Pending
    requires leaseMs < wait && st.store.jobs[job].attempts + 2 < st.store.jobs[job].maxAttempts
    ensures var n := |st.store.attempts|;
      var claimed := Apply(st, ClaimAction(0, a, leaseMs, job));
      var reclaimed := Apply(claimed, ClaimAction(wait, b, leaseMs, job));
      var failedLate := Apply(reclaimed, FinishAction(0, n, false));
      var end := Apply(failedLate, ClaimAction(0, c, leaseMs, job));
      Holds(end.store, n + 1, job) && Holds(end.store, n + 2, job)
  {
    var n := |st.store.attempts|;
    ClaimRows(st.store, job, a, leaseMs, st.clock);
    var claimed := Apply(st, ClaimAction(0, a, leaseMs, job));
    ClaimRows(claimed.store, job, b, leaseMs, st.clock + wait);
    var reclaimed := Apply(claimed, ClaimAction(wait, b, leaseMs, job));
    var failedLate := Apply(reclaimed, FinishAction(0, n, false));
    assert failedLate.store.jobs[job].status == Pending && Holds(failedLate.store, n + 1, job);
    ClaimRows(failedLate.store, job, c, leaseMs, st.clock + wait);
  }

  /** Nor are 'expired' rows left alone: A claims, B reclaims after A's lease, and A's late finish overwrites its own
      'expired' row. */
  lemma StaleWorkerRewritesExpired(st: State, job: nat, a: string, b: string, leaseMs: nat, wait: nat, success: bool)
    requires job in st.store.jobs && st.store.jobs[job].status == Pending && leaseMs < wait
    ensures var n := |st.store.attempts|;
      var reclaimed := Apply(Apply(st, ClaimAction(0, a, leaseMs, job)), ClaimAction(wait, b, leaseMs, job));
      var end := Apply(reclaimed, FinishAction(0, n, success));
      && n < |reclaimed.store.attempts| && reclaimed.store.attempts[n].status == Expired
      && !ExpiredKept(reclaimed.store, end.store)
  {
    ClaimRows(st.store, job, a, leaseMs, st.clock);
    var claimed := Apply(st, ClaimAction(0, a, leaseMs, job));
    ClaimRows(claimed.store, job, b, leaseMs, st.clock + wait);
    ExpiredKeptIff(Apply(claimed, ClaimAction(wait, b, leaseMs, job)), FinishAction(0, |st.store.attempts|, success));
  }
}
