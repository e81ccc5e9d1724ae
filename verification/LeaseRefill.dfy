/** The lease-based refill: any number of processes miss one cache key, and a short Redis lease decides who reads
    the database. */
module LeaseRefill {
  import opened Wrappers
  import opened Fencing
  import opened Products

  datatype Failure = GaveUp | DatabaseError | RedisError | Crashed

  datatype Config = Config(leaseMs: int, ttlMs: int, maxAttempts: int)

  /** A `getProduct` call between its awaits. `owner` is the acquisition its lease came from. `Asked` has sent a poll's
      GET and waits for the reply, which may come after the deadline. */
  datatype Phase =
    | Start
    | Missed
    | Polling(deadline: int)
    | Asked(deadline: int)
    | InDatabase(owner: nat, startedAt: int)
    | Fetched(owner: nat, startedAt: int, product: Product)
    | Releasing(owner: nat, result: Result<Product, Failure>)
    | Done(result: Result<Product, Failure>)
  {
    /** From the database call to the cache write. */
    predicate Refilling() {
      InDatabase? || Fetched?
    }

    predicate Owns() {
      Refilling() || Releasing?
    }
  }

  datatype Call = Call(phase: Phase, attempt: nat, databaseCalls: nat)

  datatype Cached = Cached(product: Product, expiresAt: int)

  datatype State = State(
    clock: int, cache: Option<Cached>, key: Option<Lease>, holds: nat, calls: seq<Call>, fetched: seq<Product>)

  datatype Action =
    | NewCall
    | GetCache(call: nat)
    | SetLease(call: nat)
    | DatabaseReturns(call: nat, product: Product)
    | DatabaseThrows(call: nat)
    | SetCache(call: nat)
    | ReleaseLease(call: nat)
    | Poll(call: nat)
    | PollReply(call: nat)
    | RedisFails(call: nat)
    | Deadline(call: nat)
    | Crash(call: nat)
    | Tick(elapsed: nat)

  const POLL_SLACK_MS := 250

  function Lookup(st: State): (hit: Option<Product>)
    ensures hit.Some? ==> st.cache.Some? && hit.value == st.cache.value.product
  {
    if st.cache.Some? && st.clock < st.cache.value.expiresAt then Some(st.cache.value.product) else None
  }

  predicate Enabled(st: State, a: Action) {
    match a
    case NewCall => true
    case GetCache(c) => c < |st.calls| && st.calls[c].phase.Start?
    case SetLease(c) => c < |st.calls| && st.calls[c].phase.Missed?
    case DatabaseReturns(c, _) => c < |st.calls| && st.calls[c].phase.InDatabase?
    case DatabaseThrows(c) => c < |st.calls| && st.calls[c].phase.InDatabase?
    case SetCache(c) => c < |st.calls| && st.calls[c].phase.Fetched?
    case ReleaseLease(c) => c < |st.calls| && st.calls[c].phase.Releasing?
    case Poll(c) => c < |st.calls| && st.calls[c].phase.Polling? && st.clock < st.calls[c].phase.deadline
    case PollReply(c) => c < |st.calls| && st.calls[c].phase.Asked?
    // every other phase that waits for Redis
    case RedisFails(c) =>
      c < |st.calls| && !st.calls[c].phase.Polling? && !st.calls[c].phase.InDatabase? && !st.calls[c].phase.Done?
    case Deadline(c) => c < |st.calls| && st.calls[c].phase.Polling? && st.clock >= st.calls[c].phase.deadline
    case Crash(c) => c < |st.calls|
    case Tick(_) => true
  }

  function SetPhase(st: State, c: nat, phase: Phase): State
    requires c < |st.calls|
  {
    st.(calls := st.calls[c := st.calls[c].(phase := phase)])
  }

  function Apply(cfg: Config, st: State, a: Action): State {
    if !Enabled(st, a) then st
    else match a
      case NewCall => st.(calls := st.calls + [Call(Start, 1, 0)])
      case GetCache(c) => SetPhase(st, c, if Lookup(st).Some? then Done(Ok(Lookup(st).value)) else Missed)
      case SetLease(c) =>
        if cfg.leaseMs <= 0 then SetPhase(st, c, Done(Err(RedisError)))
        else if KeyFree(st.key, st.clock) then
          st.(key := Some(Lease(st.holds + 1, st.clock + cfg.leaseMs)), holds := st.holds + 1,
              calls := st.calls[c :=
                Call(InDatabase(st.holds + 1, st.clock), st.calls[c].attempt, st.calls[c].databaseCalls + 1)])
        else SetPhase(st, c, Polling(st.clock + cfg.leaseMs + POLL_SLACK_MS))
      case DatabaseReturns(c, p) =>
        SetPhase(st, c, Fetched(st.calls[c].phase.owner, st.calls[c].phase.startedAt, p)).(fetched := st.fetched + [p])
      case DatabaseThrows(c) => SetPhase(st, c, Releasing(st.calls[c].phase.owner, Err(DatabaseError)))
      case SetCache(c) =>
        var phase := st.calls[c].phase;
        // Redis refuses an expiry that is not positive
        if cfg.ttlMs <= 0 then SetPhase(st, c, Releasing(phase.owner, Err(RedisError)))
        else SetPhase(st, c, Releasing(phase.owner, Ok(phase.product)))
          .(cache := Some(Cached(phase.product, st.clock + cfg.ttlMs)))
      case ReleaseLease(c) =>
        var phase := st.calls[c].phase;
        SetPhase(st, c, Done(phase.result))
          .(key := if !KeyFree(st.key, st.clock) && st.key.value.hold == phase.owner then None else st.key)
      case Poll(c) => SetPhase(st, c, Asked(st.calls[c].phase.deadline))
      case PollReply(c) =>
        SetPhase(st, c, if Lookup(st).Some? then Done(Ok(Lookup(st).value)) else Polling(st.calls[c].phase.deadline))
      case RedisFails(c) =>
        // a failed SET of the cache still runs the `finally`
        var phase := st.calls[c].phase;
        SetPhase(st, c, if phase.Fetched? then Releasing(phase.owner, Err(RedisError)) else Done(Err(RedisError)))
      case Deadline(c) =>
        if st.calls[c].attempt >= cfg.maxAttempts then SetPhase(st, c, Done(Err(GaveUp)))
        else st.(calls := st.calls[c := Call(Start, st.calls[c].attempt + 1, st.calls[c].databaseCalls)])
      case Crash(c) => SetPhase(st, c, Done(Err(Crashed)))
      case Tick(elapsed) => st.(clock := st.clock + elapsed)
  }

  function Run(cfg: Config, st: State, actions: seq<Action>): State {
    if actions == [] then st else Apply(cfg, Run(cfg, st, actions[..|actions| - 1]), actions[|actions| - 1])
  }

  predicate Fresh(st: State) {
    st.key == None && st.calls == [] && st.fetched == []
  }

  // ---- Database sections ----

  /** Call `c` is refilling and its lease has not lapsed. */
  predicate HoldsLease(cfg: Config, st: State, c: nat) {
    c < |st.calls| && st.calls[c].phase.Refilling() && st.clock < st.calls[c].phase.startedAt + cfg.leaseMs
  }

  /** Acquisitions are numbered, and each belongs to one call. */
  ghost predicate OwnersApart(st: State) {
    && (st.key.Some? ==> st.key.value.hold <= st.holds)
    && (forall c :: 0 <= c < |st.calls| && st.calls[c].phase.Owns() ==> st.calls[c].phase.owner <= st.holds)
    && (forall c, d :: 0 <= c < d < |st.calls| && st.calls[c].phase.Owns() && st.calls[d].phase.Owns() ==>
          st.calls[c].phase.owner != st.calls[d].phase.owner)
  }

  ghost predicate LeaseInv(cfg: Config, st: State) {
    && OwnersApart(st)
    && forall c: nat :: HoldsLease(cfg, st, c) ==>
      st.key == Some(Lease(st.calls[c].phase.owner, st.calls[c].phase.startedAt + cfg.leaseMs))
  }

  /** A step changes one call, or adds one, and makes an owner only by acquiring. */
  lemma StepOwner(cfg: Config, st: State, a: Action)
    requires Enabled(st, a) && !a.NewCall? && !a.Tick?
    ensures var next := Apply(cfg, st, a);
      && a.call < |st.calls| && next.calls == st.calls[a.call := next.calls[a.call]]
      && (next.calls[a.call].phase.Owns() ==>
            if a.SetLease? then next.calls[a.call].phase.owner == next.holds == st.holds + 1
            else st.calls[a.call].phase.Owns() && next.calls[a.call].phase.owner == st.calls[a.call].phase.owner)
      && st.holds <= next.holds
      && (next.key.Some? && next.key != st.key ==> next.key.value.hold == next.holds)
  {
    hide Lookup;
  }

  lemma StepKeepsOwners(cfg: Config, st: State, a: Action)
    requires OwnersApart(st)
    ensures OwnersApart(Apply(cfg, st, a))
  {
    if Enabled(st, a) && !a.NewCall? && !a.Tick? {
      StepOwner(cfg, st, a);
      hide Apply, Enabled;
      assert OwnersApart(Apply(cfg, st, a));
    }
  }

  /** A lease that is live after a step was just acquired, or was live before and is still in the key. */
  lemma LiveLeaseKept(cfg: Config, st: State, a: Action, c: nat)
    requires LeaseInv(cfg, st) && HoldsLease(cfg, Apply(cfg, st, a), c)
    ensures var next := Apply(cfg, st, a);
      next.key == Some(Lease(next.calls[c].phase.owner, next.calls[c].phase.startedAt + cfg.leaseMs))
  {
    hide Lookup;
    assert a == SetLease(c) || HoldsLease(cfg, st, c);
  }

  lemma StepKeepsLease(cfg: Config, st: State, a: Action)
    requires LeaseInv(cfg, st)
    ensures LeaseInv(cfg, Apply(cfg, st, a))
  {
    StepKeepsOwners(cfg, st, a);
    forall c: nat | HoldsLease(cfg, Apply(cfg, st, a), c)
      ensures var next := Apply(cfg, st, a);
        next.key == Some(Lease(next.calls[c].phase.owner, next.calls[c].phase.startedAt + cfg.leaseMs))
    {
      LiveLeaseKept(cfg, st, a, c);
    }
    hide Apply, OwnersApart;
  }

  lemma {:induction false} RunKeepsLease(cfg: Config, st: State, actions: seq<Action>)
    requires LeaseInv(cfg, st)
    ensures LeaseInv(cfg, Run(cfg, st, actions))
  {
    if actions != [] {
      RunKeepsLease(cfg, st, actions[..|actions| - 1]);
      StepKeepsLease(cfg, Run(cfg, st, actions[..|actions| - 1]), actions[|actions| - 1]);
    }
  }

  /** In every run, if two calls are refilling at once, one of them has outlived its lease. */
  lemma OverlapOnlyPastLease(cfg: Config, st: State, actions: seq<Action>, c: nat, d: nat)
    requires Fresh(st) && c < d < |Run(cfg, st, actions).calls|
    requires Run(cfg, st, actions).calls[c].phase.Refilling() && Run(cfg, st, actions).calls[d].phase.Refilling()
    ensures var end := Run(cfg, st, actions);
      || end.clock - end.calls[c].phase.startedAt >= cfg.leaseMs
      || end.clock - end.calls[d].phase.startedAt >= cfg.leaseMs
  {
    RunKeepsLease(cfg, st, actions);
    var end := Run(cfg, st, actions);
    assert !HoldsLease(cfg, end, c) || !HoldsLease(cfg, end, d);
    hide Run;
  }

  // ---- Every call ----

  /** A call reads the database at most once, starts no attempt beyond the last, and gives up only after it,
      without having read the database. */
  predicate CallBounded(cfg: Config, call: Call) {
    && 1 <= call.attempt && (call.attempt == 1 || call.attempt <= cfg.maxAttempts)
    && call.databaseCalls <= 1
    && (call.phase.Start? || call.phase.Missed? || call.phase.Polling? || call.phase.Asked? ==> call.databaseCalls == 0)
    && (call.phase.Done? && call.phase.result == Err(GaveUp) ==>
          call.databaseCalls == 0 && call.attempt >= cfg.maxAttempts)
    && (call.phase.Releasing? ==> call.phase.result != Err(GaveUp))
  }

  lemma {:induction false} CallsBounded(cfg: Config, st: State, actions: seq<Action>)
    requires Fresh(st)
    ensures forall c :: 0 <= c < |Run(cfg, st, actions).calls| ==> CallBounded(cfg, Run(cfg, st, actions).calls[c])
  {
    if actions != [] {
      CallsBounded(cfg, st, actions[..|actions| - 1]);
    }
  }

  // ---- Agreement with the database ----

  /** The product came from a database read of this run, or was cached at its start. */
  ghost predicate Sourced(st: State, initial: Option<Cached>, product: Product) {
    product in st.fetched || (initial.Some? && product == initial.value.product)
  }

  ghost predicate CallSourced(st: State, initial: Option<Cached>, call: Call) {
    && (call.phase.Fetched? ==> Sourced(st, initial, call.phase.product))
    && ((call.phase.Releasing? || call.phase.Done?) && call.phase.result.Ok? ==>
          Sourced(st, initial, call.phase.result.value))
  }

  lemma {:induction false} ResultsSourced(cfg: Config, st: State, actions: seq<Action>)
    requires Fresh(st)
    ensures var end := Run(cfg, st, actions);
      && (end.cache.Some? ==> Sourced(end, st.cache, end.cache.value.product))
      && forall c :: 0 <= c < |end.calls| ==> CallSourced(end, st.cache, end.calls[c])
  {
    if actions != [] {
      ResultsSourced(cfg, st, actions[..|actions| - 1]);
      StepSourced(cfg, Run(cfg, st, actions[..|actions| - 1]), st.cache, actions[|actions| - 1]);
    }
  }

  lemma StepSourced(cfg: Config, st: State, initial: Option<Cached>, a: Action)
    requires st.cache.Some? ==> Sourced(st, initial, st.cache.value.product)
    requires forall c :: 0 <= c < |st.calls| ==> CallSourced(st, initial, st.calls[c])
    ensures var next := Apply(cfg, st, a);
      && (next.cache.Some? ==> Sourced(next, initial, next.cache.value.product))
      && forall c :: 0 <= c < |next.calls| ==> CallSourced(next, initial, next.calls[c])
  {
    var next := Apply(cfg, st, a);
    assert forall p :: Sourced(st, initial, p) ==> Sourced(next, initial, p);
    if Enabled(st, a) && !a.NewCall? && !a.Tick? {
      StepOwner(cfg, st, a);
      StepSourcedCall(cfg, st, initial, a);
      hide Apply, Enabled, Sourced;
      assert forall c :: 0 <= c < |next.calls| && c != a.call ==> next.calls[c] == st.calls[c];
    }
  }

  lemma StepSourcedCall(cfg: Config, st: State, initial: Option<Cached>, a: Action)
    requires Enabled(st, a) && !a.NewCall? && !a.Tick?
    requires st.cache.Some? ==> Sourced(st, initial, st.cache.value.product)
    requires a.call < |st.calls| && CallSourced(st, initial, st.calls[a.call])
    ensures var next := Apply(cfg, st, a);
      && (next.cache.Some? ==> Sourced(next, initial, next.cache.value.product))
      && a.call < |next.calls| && CallSourced(next, initial, next.calls[a.call])
  {
    assert forall p :: Sourced(st, initial, p) ==> Sourced(Apply(cfg, st, a), initial, p);
  }

  /** With an unchanging database, every call that returns a value returns the database's. */
  lemma {:induction false} AgreesWithDatabase(cfg: Config, st: State, actions: seq<Action>, db: Product)
    requires Fresh(st) && (st.cache.Some? ==> st.cache.value.product == db)
    requires forall k :: 0 <= k < |actions| && actions[k].DatabaseReturns? ==> actions[k].product == db
    ensures forall p :: p in Run(cfg, st, actions).fetched ==> p == db
    ensures forall c :: 0 <= c < |Run(cfg, st, actions).calls| ==>
      var phase := Run(cfg, st, actions).calls[c].phase; phase.Done? && phase.result.Ok? ==> phase.result.value == db
  {
    if actions != [] {
      AgreesWithDatabase(cfg, st, actions[..|actions| - 1], db);
    }
    ResultsSourced(cfg, st, actions);
  }
}
