/** What the history of a run alone says about the cache entry, the lease and the waiting of a lease-based refill. */
module LeaseRefillHistory {
  import opened Wrappers
  import Fencing
  import opened Products
  import opened LeaseRefill

  /** When a call last asked for the lease. */
  function AskedAt(cfg: Config, st: State, actions: seq<Action>, c: nat): int {
    if actions == [] then 0 else
      var prefix, a := actions[..|actions| - 1], actions[|actions| - 1];
      if a == SetLease(c) && Enabled(Run(cfg, st, prefix), a) then Run(cfg, st, prefix).clock
      else AskedAt(cfg, st, prefix, c)
  }

  /** What the database last gave a call. */
  function ReadBy(cfg: Config, st: State, actions: seq<Action>, c: nat): Option<Product> {
    if actions == [] then None else
      var prefix, a := actions[..|actions| - 1], actions[|actions| - 1];
      if a.DatabaseReturns? && a.call == c && Enabled(Run(cfg, st, prefix), a) then Some(a.product)
      else ReadBy(cfg, st, prefix, c)
  }

  datatype Write = Write(product: Product, at: int)

  /** The latest write of the cache: what its call had read, and when. */
  function LastWrite(cfg: Config, st: State, actions: seq<Action>): Option<Write> {
    if actions == [] then None else
      var prefix, a := actions[..|actions| - 1], actions[|actions| - 1];
      if a.SetCache? && Enabled(Run(cfg, st, prefix), a) && cfg.ttlMs > 0 && ReadBy(cfg, st, prefix, a.call).Some?
      then Some(Write(ReadBy(cfg, st, prefix, a.call).value, Run(cfg, st, prefix).clock))
      else LastWrite(cfg, st, prefix)
  }

  /** What a read of the cache finds: the latest write of the run for `ttlMs`, or the entry from before the run. */
  function Cachable(cfg: Config, st: State, actions: seq<Action>): Option<Product> {
    var now := Run(cfg, st, actions).clock;
    match LastWrite(cfg, st, actions)
    case Some(write) => if now < write.at + cfg.ttlMs then Some(write.product) else None
    case None => if st.cache.Some? && now < st.cache.value.expiresAt then Some(st.cache.value.product) else None
  }

  predicate CallTold(cfg: Config, call: Call, askedAt: int, read: Option<Product>) {
    match call.phase
    case Polling(deadline) => deadline == askedAt + cfg.leaseMs + 250
    case Asked(deadline) => deadline == askedAt + cfg.leaseMs + 250
    case InDatabase(_, startedAt) => startedAt == askedAt
    case Fetched(_, startedAt, product) => startedAt == askedAt && read == Some(product)
    case Releasing(_, result) => result.Ok? ==> read == Some(result.value)
    case Done(result) => result.Ok? && call.databaseCalls == 1 ==> read == Some(result.value)
    case _ => true
  }

  ghost predicate CallsTold(cfg: Config, st: State, actions: seq<Action>) {
    var e := Run(cfg, st, actions);
    forall c: nat :: c < |e.calls| ==>
      CallTold(cfg, e.calls[c], AskedAt(cfg, st, actions, c), ReadBy(cfg, st, actions, c))
  }

  predicate CacheTold(cfg: Config, st: State, actions: seq<Action>) {
    Run(cfg, st, actions).cache ==
      match LastWrite(cfg, st, actions)
      case Some(write) => Some(Cached(write.product, write.at + cfg.ttlMs))
      case None => st.cache
  }

  /** The acting call's step. */
  lemma CallStep(cfg: Config, e: State, a: Action, askedAt: int, read: Option<Product>)
    requires Enabled(e, a) && !a.NewCall? && !a.Tick? && a.call < |e.calls|
    requires CallTold(cfg, e.calls[a.call], askedAt, read) && NotYetRead(e.calls[a.call])
    ensures a.call < |Apply(cfg, e, a).calls|
    ensures CallTold(cfg, Apply(cfg, e, a).calls[a.call], if a.SetLease? then e.clock else askedAt,
                     if a.DatabaseReturns? then Some(a.product) else read)
  {
    hide Lookup, Fencing.KeyFree;
  }

  lemma ActingCallTold(cfg: Config, st: State, actions: seq<Action>, c: nat)
    requires actions != [] && Enabled(Run(cfg, st, actions[..|actions| - 1]), actions[|actions| - 1])
    requires var a := actions[|actions| - 1]; !a.NewCall? && !a.Tick? && a.call == c
    requires c < |Run(cfg, st, actions[..|actions| - 1]).calls|
    requires var prefix := actions[..|actions| - 1];
      && CallTold(cfg, Run(cfg, st, prefix).calls[c], AskedAt(cfg, st, prefix, c), ReadBy(cfg, st, prefix, c))
      && NotYetRead(Run(cfg, st, prefix).calls[c])
    ensures c < |Run(cfg, st, actions).calls|
    ensures CallTold(cfg, Run(cfg, st, actions).calls[c], AskedAt(cfg, st, actions, c), ReadBy(cfg, st, actions, c))
  {
    var prefix, a := actions[..|actions| - 1], actions[|actions| - 1];
    CallStep(cfg, Run(cfg, st, prefix), a, AskedAt(cfg, st, prefix, c), ReadBy(cfg, st, prefix, c));
    hide Apply, CallTold;
  }

  lemma StepKeepsCallsTold(cfg: Config, st: State, actions: seq<Action>)
    requires Fresh(st) && actions != [] && CallsTold(cfg, st, actions[..|actions| - 1])
    ensures CallsTold(cfg, st, actions)
  {
    var prefix, a := actions[..|actions| - 1], actions[|actions| - 1];
    var e, next := Run(cfg, st, prefix), Run(cfg, st, actions);
    CallsBounded(cfg, st, prefix);
    if Enabled(e, a) && !a.NewCall? && !a.Tick? {
      StepOwner(cfg, e, a);
      assert CallBounded(cfg, e.calls[a.call]) && NotYetRead(e.calls[a.call]);
      ActingCallTold(cfg, st, actions, a.call);
      forall d: nat | d != a.call
        ensures AskedAt(cfg, st, actions, d) == AskedAt(cfg, st, prefix, d)
        ensures ReadBy(cfg, st, actions, d) == ReadBy(cfg, st, prefix, d)
      {
      }
      hide Apply, AskedAt, ReadBy, CallTold, Lookup;
    }
  }

  predicate NotYetRead(call: Call) {
    call.phase.Start? || call.phase.Missed? || call.phase.Polling? || call.phase.Asked? ==> call.databaseCalls == 0
  }

  lemma {:induction false} RunTold(cfg: Config, st: State, actions: seq<Action>)
    requires Fresh(st)
    ensures CallsTold(cfg, st, actions) && CacheTold(cfg, st, actions)
  {
    if actions != [] {
      RunTold(cfg, st, actions[..|actions| - 1]);
      StepKeepsCallsTold(cfg, st, actions);
      hide CallsTold, AskedAt, ReadBy;
    }
  }

  /** In every run: a read of the cache, the first one or a poll's, returns exactly what the latest write put there if
      less than `ttlMs` has passed since, and otherwise finds nothing. */
  lemma ReadsLatestWrite(cfg: Config, st: State, actions: seq<Action>, c: nat)
    requires Fresh(st) && c < |Run(cfg, st, actions).calls|
    ensures var e, hit := Run(cfg, st, actions), Cachable(cfg, st, actions);
      && (e.calls[c].phase.Start? ==>
            Apply(cfg, e, GetCache(c)).calls[c].phase == if hit.Some? then Done(Ok(hit.value)) else Missed)
      && (e.calls[c].phase.Asked? ==>
            Apply(cfg, e, PollReply(c)).calls[c].phase
              == if hit.Some? then Done(Ok(hit.value)) else Polling(e.calls[c].phase.deadline))
  {
    RunTold(cfg, st, actions);
    LookupTold(cfg, st, actions);
    hide Run, LastWrite, Cachable, Lookup, CallsTold;
  }

  lemma LookupTold(cfg: Config, st: State, actions: seq<Action>)
    requires CacheTold(cfg, st, actions)
    ensures Lookup(Run(cfg, st, actions)) == Cachable(cfg, st, actions)
  {
    hide Run;
  }

  /** In every run: a call that read the database returns what it read, or an error. */
  lemma ReturnsWhatItRead(cfg: Config, st: State, actions: seq<Action>, c: nat)
    requires Fresh(st) && c < |Run(cfg, st, actions).calls|
    ensures var call := Run(cfg, st, actions).calls[c];
      call.phase.Done? && call.phase.result.Ok? && call.databaseCalls == 1 ==>
        ReadBy(cfg, st, actions, c) == Some(call.phase.result.value)
  {
    RunTold(cfg, st, actions);
  }

  // ---- The lease ----

  /** The state before action `n` of the run, or at its end. */
  function At(cfg: Config, st: State, actions: seq<Action>, n: nat): State
    requires n <= |actions|
  {
    Run(cfg, st, actions[..n])
  }

  lemma AtNext(cfg: Config, st: State, actions: seq<Action>, n: nat)
    requires n < |actions|
    ensures At(cfg, st, actions, n + 1) == Apply(cfg, At(cfg, st, actions, n), actions[n])
  {
    assert actions[..n + 1][..n] == actions[..n];
  }

  /** Action `k` gave call `c` the lease. */
  predicate Acquires(cfg: Config, st: State, actions: seq<Action>, k: nat, c: nat) {
    && k < |actions| && actions[k] == SetLease(c) && Enabled(At(cfg, st, actions, k), actions[k])
    && c < |At(cfg, st, actions, k + 1).calls| && At(cfg, st, actions, k + 1).calls[c].phase.InDatabase?
  }

  predicate GivesBack(cfg: Config, st: State, actions: seq<Action>, j: nat, c: nat) {
    j < |actions| && actions[j] == ReleaseLease(c) && Enabled(At(cfg, st, actions, j), actions[j])
  }

  ghost predicate LastHolder(cfg: Config, st: State, actions: seq<Action>, n: nat, k: nat, c: nat) {
    && k < n <= |actions| && Acquires(cfg, st, actions, k, c)
    && forall j: nat, d: nat :: k < j < n ==> !Acquires(cfg, st, actions, j, d)
  }

  ghost predicate GivenBack(cfg: Config, st: State, actions: seq<Action>, n: nat, k: nat, c: nat) {
    exists j: nat :: k < j < n && GivesBack(cfg, st, actions, j, c)
  }

  /** Only call `c` carries the latest acquisition; the key is its lease until `until`, unless it was given back. */
  ghost predicate KeyTold(e: State, c: nat, until: int, given: bool) {
    && (forall d: nat :: d < |e.calls| && e.calls[d].phase.Owns() ==> (e.calls[d].phase.owner == e.holds <==> d == c))
    && (!given ==> e.key == Some(Fencing.Lease(e.holds, until)))
    && (given ==> e.key == None || (e.key.value.expiresAt == until <= e.clock && e.key.value.hold == e.holds))
  }

  /** A step that acquires nothing. */
  lemma StepKeepsKeyTold(cfg: Config, e: State, a: Action, c: nat, until: int, given: bool)
    requires OwnersApart(e) && KeyTold(e, c, until, given)
    requires a.SetLease? && Enabled(e, a) ==>
        a.call < |Apply(cfg, e, a).calls| && !Apply(cfg, e, a).calls[a.call].phase.InDatabase?
    ensures KeyTold(Apply(cfg, e, a), c, until, given || (a == ReleaseLease(c) && Enabled(e, a)))
  {
    if Enabled(e, a) && !a.NewCall? && !a.Tick? {
      StepOwner(cfg, e, a);
    }
    hide Lookup;
  }

  lemma FirstKeyTold(cfg: Config, st: State, actions: seq<Action>, k: nat, c: nat)
    requires Fresh(st) && Acquires(cfg, st, actions, k, c)
    ensures KeyTold(At(cfg, st, actions, k + 1), c, At(cfg, st, actions, k).clock + cfg.leaseMs, false)
    ensures cfg.leaseMs > 0
  {
    AtNext(cfg, st, actions, k);
    RunKeepsLease(cfg, st, actions[..k]);
  }

  lemma {:induction false} RunKeyTold(cfg: Config, st: State, actions: seq<Action>, n: nat, k: nat, c: nat)
    requires Fresh(st) && LastHolder(cfg, st, actions, n, k, c)
    ensures KeyTold(At(cfg, st, actions, n), c, At(cfg, st, actions, k).clock + cfg.leaseMs,
                    GivenBack(cfg, st, actions, n, k, c))
  {
    FirstKeyTold(cfg, st, actions, k, c);
    if n > k + 1 {
      RunKeyTold(cfg, st, actions, n - 1, k, c);
      var before, a := At(cfg, st, actions, n - 1), actions[n - 1];
      AtNext(cfg, st, actions, n - 1);
      RunKeepsLease(cfg, st, actions[..n - 1]);
      NotAcquired(cfg, st, actions, n, k, c);
      GivenBackLater(cfg, st, actions, n, k, c);
      hide Run, GivenBack, Apply, KeyTold, OwnersApart, LastHolder, HoldsLease, Enabled, Acquires;
      StepKeepsKeyTold(cfg, before, a, c, At(cfg, st, actions, k).clock + cfg.leaseMs,
                       GivenBack(cfg, st, actions, n - 1, k, c));
    }
  }

  lemma GivenBackLater(cfg: Config, st: State, actions: seq<Action>, n: nat, k: nat, c: nat)
    requires k + 1 < n <= |actions|
    ensures GivenBack(cfg, st, actions, n, k, c)
      <==> GivenBack(cfg, st, actions, n - 1, k, c) || GivesBack(cfg, st, actions, n - 1, c)
  {
    hide GivesBack;
  }

  lemma NotAcquired(cfg: Config, st: State, actions: seq<Action>, n: nat, k: nat, c: nat)
    requires k + 1 < n <= |actions| && LastHolder(cfg, st, actions, n, k, c)
    ensures LastHolder(cfg, st, actions, n - 1, k, c)
    ensures var e, a := At(cfg, st, actions, n - 1), actions[n - 1];
      a.SetLease? && Enabled(e, a) ==>
        a.call < |Apply(cfg, e, a).calls| && !Apply(cfg, e, a).calls[a.call].phase.InDatabase?
  {
    var e, a := At(cfg, st, actions, n - 1), actions[n - 1];
    AtNext(cfg, st, actions, n - 1);
    if a.SetLease? && Enabled(e, a) {
      SetLeaseKeepsCalls(cfg, e, a);
      assert !Acquires(cfg, st, actions, n - 1, a.call);
    }
    hide Apply, Run, At;
  }

  lemma SetLeaseKeepsCalls(cfg: Config, e: State, a: Action)
    requires Enabled(e, a) && a.SetLease?
    ensures a.call < |Apply(cfg, e, a).calls|
  {
  }

  /** In every run: who asks for the lease after an acquisition at time t gets it exactly if the holder has given it
      back or t + leaseMs has come. */
  lemma AcquiresIff(cfg: Config, st: State, actions: seq<Action>, n: nat, k: nat, c: nat, d: nat)
    requires Fresh(st) && LastHolder(cfg, st, actions, n, k, c)
    requires d < |At(cfg, st, actions, n).calls| && At(cfg, st, actions, n).calls[d].phase.Missed?
    ensures var e, t := At(cfg, st, actions, n), At(cfg, st, actions, k).clock;
      Apply(cfg, e, SetLease(d)).calls[d].phase.InDatabase? <==>
        GivenBack(cfg, st, actions, n, k, c) || e.clock >= t + cfg.leaseMs
  {
    FirstKeyTold(cfg, st, actions, k, c);
    RunKeyTold(cfg, st, actions, n, k, c);
  }

  // ---- Waiting ----

  /** When a call was made. */
  function MadeAt(cfg: Config, st: State, actions: seq<Action>, c: nat): int {
    if actions == [] then 0 else
      var before := Run(cfg, st, actions[..|actions| - 1]);
      if actions[|actions| - 1].NewCall? && |before.calls| == c then before.clock
      else MadeAt(cfg, st, actions[..|actions| - 1], c)
  }

  function Waits(cfg: Config, attempts: int): int {
    attempts * (cfg.leaseMs + 250)
  }

  lemma OneMoreWait(cfg: Config, attempts: int)
    ensures Waits(cfg, attempts) == Waits(cfg, attempts - 1) + cfg.leaseMs + 250
  {
  }

  predicate CallWaited(cfg: Config, call: Call, madeAt: int, now: int) {
    match call.phase
    case Start => now >= madeAt + Waits(cfg, call.attempt - 1)
    case Missed => now >= madeAt + Waits(cfg, call.attempt - 1)
    case Polling(deadline) => deadline >= madeAt + Waits(cfg, call.attempt)
    case Asked(deadline) => deadline >= madeAt + Waits(cfg, call.attempt)
    case Done(result) => result == Err(GaveUp) ==> now >= madeAt + Waits(cfg, call.attempt)
    case Releasing(_, result) => result != Err(GaveUp)
    case _ => true
  }

  ghost predicate CallsWaited(cfg: Config, st: State, actions: seq<Action>) {
    var e := Run(cfg, st, actions);
    forall c: nat :: c < |e.calls| ==> CallWaited(cfg, e.calls[c], MadeAt(cfg, st, actions, c), e.clock)
  }

  lemma StepWaited(cfg: Config, st: State, actions: seq<Action>)
    requires actions != [] && CallsWaited(cfg, st, actions[..|actions| - 1])
    ensures CallsWaited(cfg, st, actions)
  {
    var before, a := Run(cfg, st, actions[..|actions| - 1]), actions[|actions| - 1];
    assert Waits(cfg, 0) == 0;
    if Enabled(before, a) && !a.NewCall? && !a.Tick? {
      OneMoreWait(cfg, before.calls[a.call].attempt);
    }
    hide Waits, Lookup;
  }

  lemma {:induction false} RunWaited(cfg: Config, st: State, actions: seq<Action>)
    requires Fresh(st)
    ensures CallsWaited(cfg, st, actions)
  {
    if actions != [] {
      RunWaited(cfg, st, actions[..|actions| - 1]);
      StepWaited(cfg, st, actions);
    }
  }

  /** In every run: a call gives up only after its last attempt, and only once leaseMs + 250 ms have passed for each of
      its attempts. */
  lemma GivesUpLate(cfg: Config, st: State, actions: seq<Action>, c: nat)
    requires Fresh(st) && c < |Run(cfg, st, actions).calls|
    requires Run(cfg, st, actions).calls[c].phase == Done(Err(GaveUp))
    ensures var e := Run(cfg, st, actions);
      && e.calls[c].attempt >= cfg.maxAttempts
      && e.clock >= MadeAt(cfg, st, actions, c) + e.calls[c].attempt * (cfg.leaseMs + 250)
  {
    hide MadeAt, Run;
    CallsBounded(cfg, st, actions);
    RunWaited(cfg, st, actions);
    assert CallBounded(cfg, Run(cfg, st, actions).calls[c]);
  }

  /** In every run: if two calls are between their lease and their cache write at once, then one of them asked for its
      lease at least leaseMs ago. */
  lemma OverlapOnlyLate(cfg: Config, st: State, actions: seq<Action>, c: nat, d: nat)
    requires Fresh(st) && c < d < |Run(cfg, st, actions).calls|
    requires Run(cfg, st, actions).calls[c].phase.Refilling() && Run(cfg, st, actions).calls[d].phase.Refilling()
    ensures var now := Run(cfg, st, actions).clock;
      now >= AskedAt(cfg, st, actions, c) + cfg.leaseMs || now >= AskedAt(cfg, st, actions, d) + cfg.leaseMs
  {
    hide Run, AskedAt;
    RunTold(cfg, st, actions);
    OverlapOnlyPastLease(cfg, st, actions, c, d);
  }

  // ---- How a call ends ----

  /** What the call's last await decided: a hit, a refused or failed command, the database's answer, or the last
      deadline. Nothing yet while it is still trying. */
  function Decided(cfg: Config, st: State, actions: seq<Action>, c: nat): Option<Result<Product, Failure>> {
    if actions == [] then None else
      var prefix, a := actions[..|actions| - 1], actions[|actions| - 1];
      var e, earlier := Run(cfg, st, prefix), Decided(cfg, st, prefix, c);
      if !Enabled(e, a) || a.NewCall? || a.Tick? || a.call != c then earlier
      else match a
        case GetCache(_) => Hit(Cachable(cfg, st, prefix), earlier)
        case PollReply(_) => Hit(Cachable(cfg, st, prefix), earlier)
        case SetLease(_) => if cfg.leaseMs <= 0 then Some(Err(RedisError)) else earlier
        case DatabaseThrows(_) => Some(Err(DatabaseError))
        case SetCache(_) =>
          if cfg.ttlMs <= 0 || ReadBy(cfg, st, prefix, c).None? then Some(Err(RedisError))
          else Some(Ok(ReadBy(cfg, st, prefix, c).value))
        case RedisFails(_) => if e.calls[c].phase.Releasing? then earlier else Some(Err(RedisError))
        case Deadline(_) => if e.calls[c].attempt >= cfg.maxAttempts then Some(Err(GaveUp)) else earlier
        case _ => earlier
  }

  function Hit(hit: Option<Product>, earlier: Option<Result<Product, Failure>>): Option<Result<Product, Failure>> {
    if hit.Some? then Some(Ok(hit.value)) else earlier
  }

  /** The call gave its lease back, or failed to. */
  function TriedRelease(cfg: Config, st: State, actions: seq<Action>, c: nat): bool {
    actions != [] &&
    var prefix, a := actions[..|actions| - 1], actions[|actions| - 1];
    || TriedRelease(cfg, st, prefix, c)
    || ((a == ReleaseLease(c) || a == RedisFails(c)) && Enabled(Run(cfg, st, prefix), a)
        && Run(cfg, st, prefix).calls[c].phase.Releasing?)
  }

  predicate EndTold(call: Call, decided: Option<Result<Product, Failure>>, tried: bool) {
    match call.phase
    case Releasing(_, result) => decided == Some(result) && !tried
    case Done(Err(Crashed)) => true
    case Done(result) =>
      && (call.databaseCalls == 1 ==> tried)
      && (decided == Some(result) || (tried && result == Err(RedisError)))
    case _ => decided == None && !tried
  }

  ghost predicate EndsTold(cfg: Config, st: State, actions: seq<Action>) {
    var e := Run(cfg, st, actions);
    forall c: nat ::
      if c < |e.calls| then
        EndTold(e.calls[c], Decided(cfg, st, actions, c), TriedRelease(cfg, st, actions, c))
      else Decided(cfg, st, actions, c) == None && !TriedRelease(cfg, st, actions, c)
  }

  /** The acting call. */
  lemma ActingEndTold(cfg: Config, st: State, actions: seq<Action>, c: nat)
    requires Fresh(st) && actions != [] && Enabled(Run(cfg, st, actions[..|actions| - 1]), actions[|actions| - 1])
    requires var a := actions[|actions| - 1]; !a.NewCall? && !a.Tick? && a.call == c
    requires c < |Run(cfg, st, actions[..|actions| - 1]).calls|
    requires var prefix := actions[..|actions| - 1];
      && EndTold(Run(cfg, st, prefix).calls[c], Decided(cfg, st, prefix, c), TriedRelease(cfg, st, prefix, c))
      && CallTold(cfg, Run(cfg, st, prefix).calls[c], AskedAt(cfg, st, prefix, c), ReadBy(cfg, st, prefix, c))
      && NotYetRead(Run(cfg, st, prefix).calls[c])
      && Lookup(Run(cfg, st, prefix)) == Cachable(cfg, st, prefix)
    ensures c < |Run(cfg, st, actions).calls|
    ensures EndTold(Run(cfg, st, actions).calls[c], Decided(cfg, st, actions, c), TriedRelease(cfg, st, actions, c))
  {
    hide Lookup, Cachable, AskedAt, ReadBy;
    match actions[|actions| - 1]
    case _ =>
  }

  lemma StepEndsTold(cfg: Config, st: State, actions: seq<Action>)
    requires Fresh(st) && actions != [] && EndsTold(cfg, st, actions[..|actions| - 1])
    requires CallsTold(cfg, st, actions[..|actions| - 1]) && CacheTold(cfg, st, actions[..|actions| - 1])
    ensures EndsTold(cfg, st, actions)
  {
    var prefix, a := actions[..|actions| - 1], actions[|actions| - 1];
    var e, next := Run(cfg, st, prefix), Run(cfg, st, actions);
    LookupTold(cfg, st, prefix);
    CallsBounded(cfg, st, prefix);
    if Enabled(e, a) && !a.NewCall? && !a.Tick? {
      StepOwner(cfg, e, a);
      assert CallBounded(cfg, e.calls[a.call]) && NotYetRead(e.calls[a.call]);
      ActingEndTold(cfg, st, actions, a.call);
      forall d: nat | d != a.call
        ensures Decided(cfg, st, actions, d) == Decided(cfg, st, prefix, d)
        ensures TriedRelease(cfg, st, actions, d) == TriedRelease(cfg, st, prefix, d)
      {
      }
      hide Apply, Decided, TriedRelease, EndTold, CallsTold, Cachable, Lookup;
    } else {
      forall d: nat
        ensures Decided(cfg, st, actions, d) == Decided(cfg, st, prefix, d)
        ensures TriedRelease(cfg, st, actions, d) == TriedRelease(cfg, st, prefix, d)
      {
      }
      hide Decided, TriedRelease, CallsTold, Cachable, Lookup;
    }
  }

  /** In every run: a call that did not crash ends with what its last await decided, or with a Redis error from giving
      its lease back; and a call that read the database has given its lease back, or failed to, before it ends. */
  lemma {:induction false} EndsAsDecided(cfg: Config, st: State, actions: seq<Action>)
    requires Fresh(st)
    ensures EndsTold(cfg, st, actions)
  {
    if actions != [] {
      EndsAsDecided(cfg, st, actions[..|actions| - 1]);
      RunTold(cfg, st, actions[..|actions| - 1]);
      StepEndsTold(cfg, st, actions);
    }
  }

  // ---- A refill left alone ----

  /** Undisturbed, a call that finds neither the cache nor the lease taken reads the database once, caches the product
      for ttlMs, gives the lease back and returns the product. */
  lemma RefillAlone(cfg: Config, st: State, c: nat, p: Product, took: nat)
    requires c < |st.calls| && st.calls[c].phase.Start? && st.key == None && cfg.leaseMs > 0 && cfg.ttlMs > 0
    requires st.cache.None? || st.cache.value.expiresAt <= st.clock
    requires took < cfg.leaseMs
    ensures var reading := Apply(cfg, Apply(cfg, st, GetCache(c)), SetLease(c));
      var read := Apply(cfg, Apply(cfg, reading, Tick(took)), DatabaseReturns(c, p));
      var end := Apply(cfg, Apply(cfg, read, SetCache(c)), ReleaseLease(c));
      && c < |end.calls| && end.calls[c].phase == Done(Ok(p))
      && end.calls[c].databaseCalls == st.calls[c].databaseCalls + 1
      && end.cache == Some(Cached(p, st.clock + took + cfg.ttlMs)) && end.key == None
      && end.fetched == st.fetched + [p]
  {
    var reading := Apply(cfg, Apply(cfg, st, GetCache(c)), SetLease(c));
    assert reading == st.(key := Some(Fencing.Lease(st.holds + 1, st.clock + cfg.leaseMs)), holds := st.holds + 1,
                          calls := reading.calls);
    assert c < |reading.calls| && reading.calls[c].phase == InDatabase(st.holds + 1, st.clock)
      && reading.calls[c].databaseCalls == st.calls[c].databaseCalls + 1;
    FinishAlone(cfg, Apply(cfg, reading, Tick(took)), c, p);
    hide Lookup;
  }

  lemma FinishAlone(cfg: Config, e: State, c: nat, p: Product)
    requires c < |e.calls| && e.calls[c].phase.InDatabase? && cfg.ttlMs > 0
    requires e.key.Some? && e.key.value.hold == e.calls[c].phase.owner && e.clock < e.key.value.expiresAt
    ensures var end := Apply(cfg, Apply(cfg, Apply(cfg, e, DatabaseReturns(c, p)), SetCache(c)), ReleaseLease(c));
      && c < |end.calls| && end.calls[c].phase == Done(Ok(p)) && end.calls[c].databaseCalls == e.calls[c].databaseCalls
      && end.cache == Some(Cached(p, e.clock + cfg.ttlMs)) && end.key == None && end.fetched == e.fetched + [p]
  {
    hide Lookup;
  }

  /** A call that has waited in vain polls until its deadline, and then tries again or gives up after its last
      attempt. */
  lemma WaitsAndRetries(cfg: Config, e: State, c: nat)
    requires c < |e.calls| && e.calls[c].phase.Polling? && Lookup(e).None?
    ensures var call := e.calls[c];
      if e.clock < call.phase.deadline then
        Apply(cfg, Apply(cfg, e, Poll(c)), PollReply(c)) == e
      else
        var next := Apply(cfg, e, Deadline(c));
        && c < |next.calls|
        && next.calls[c] == if call.attempt >= cfg.maxAttempts then call.(phase := Done(Err(GaveUp)))
                            else Call(Start, call.attempt + 1, call.databaseCalls)
  {
    if e.clock < e.calls[c].phase.deadline {
      var asked := Apply(cfg, e, Poll(c));
      assert Lookup(asked) == Lookup(e) && asked.calls[c].phase == Asked(e.calls[c].phase.deadline);
      assert Apply(cfg, asked, PollReply(c)).calls == e.calls;
    }
  }
}
