/** One `getProduct` call against a store that other processes write to at every await. */
module LeaseRefillCache {
  import opened Wrappers
  import opened Fencing
  import opened Products
  import opened LeaseRefill

  /** What came of a Redis command of this call: the cache read, the lease won or lost, the cache written, the lease
      given back, or no answer. */
  datatype Command =
    | Read(hit: Option<Product>, at: int)
    | Won(owner: nat, at: int, until: int)
    | Lost
    | Filled(product: Product, at: int, until: int)
    | GaveBack(owner: nat)
    | Unanswered

  /** The Redis keys of one product, the clock, and what came of the commands so far. */
  class Store {
    var clock: int
    var cache: Option<Cached>
    var key: Option<Lease>
    ghost var trace: seq<Command>

    /** An await: time passes, and every other process may write what it likes, so nothing is promised of the
        keys. */
    method Await(ms: nat)
      modifies this
      ensures clock >= old(clock) + ms && trace == old(trace)
    {
      clock := clock + ms;
    }

    /** A Redis command on its way. It may fail, and then it is not known to have run. */
    method Send() returns (answered: bool)
      modifies this
      ensures clock >= old(clock) && trace == if answered then old(trace) else old(trace) + [Unanswered]
    {
      Await(0);
      answered := *;
      if !answered {
        trace := trace + [Unanswered];
      }
    }

    /** What the cache holds and has not let expire. */
    predicate Caches(product: Product)
      reads this
    {
      cache.Some? && clock < cache.value.expiresAt && cache.value.product == product
    }

    method Get() returns (hit: Option<Product>)
      modifies this`trace
      ensures hit.Some? <==> cache.Some? && clock < cache.value.expiresAt
      ensures hit.Some? ==> Caches(hit.value)
      ensures trace == old(trace) + [Read(hit, clock)]
    {
      hit := if cache.Some? && clock < cache.value.expiresAt then Some(cache.value.product) else None;
      trace := trace + [Read(hit, clock)];
    }

    /** SET product with an expiry. */
    method Set(product: Product, ttlMs: int)
      requires ttlMs > 0
      modifies this`cache, this`trace
      ensures cache == Some(Cached(product, clock + ttlMs))
      ensures trace == old(trace) + [Filled(product, clock, clock + ttlMs)]
    {
      cache := Some(Cached(product, clock + ttlMs));
      trace := trace + [Filled(product, clock, clock + ttlMs)];
    }

    /** SET lock owner PX leaseMs NX. */
    method SetLease(owner: nat, leaseMs: int) returns (acquired: bool)
      requires leaseMs > 0
      modifies this`key, this`trace
      ensures acquired <==> (old(key).None? || old(key).value.expiresAt <= clock)
      ensures key == if acquired then Some(Lease(owner, clock + leaseMs)) else old(key)
      ensures trace == old(trace) + [if acquired then Won(owner, clock, clock + leaseMs) else Lost]
    {
      acquired := KeyFree(key, clock);
      if acquired {
        key := Some(Lease(owner, clock + leaseMs));
      }
      trace := trace + [if acquired then Won(owner, clock, clock + leaseMs) else Lost];
    }

    /** Deletes the lease only if the caller still owns it. */
    method ReleaseIfOwner(owner: nat)
      modifies this`key, this`trace
      ensures key ==
        if old(key).Some? && clock < old(key).value.expiresAt && old(key).value.hold == owner then None else old(key)
      ensures trace == old(trace) + [GaveBack(owner)]
    {
      if !KeyFree(key, clock) && key.value.hold == owner {
        key := None;
      }
      trace := trace + [GaveBack(owner)];
    }
  }

  /** Nothing but cache reads that found nothing, and leases somebody else held. */
  ghost predicate InVain(commands: seq<Command>) {
    forall c :: c in commands ==> (c.Read? && c.hit.None?) || c == Lost
  }

  ghost predicate EndsWithHit(commands: seq<Command>, product: Product) {
    && commands != [] && commands[|commands| - 1].Read? && commands[|commands| - 1].hit == Some(product)
    && InVain(commands[..|commands| - 1])
  }

  ghost predicate EndsUnanswered(commands: seq<Command>) {
    commands != [] && commands[|commands| - 1] == Unanswered && InVain(commands[..|commands| - 1])
  }

  /** Cache reads at least an interval apart. */
  ghost predicate Spaced(commands: seq<Command>, intervalMs: nat) {
    forall k :: 0 < k < |commands| && commands[k - 1].Read? && commands[k].Read? ==>
      commands[k].at >= commands[k - 1].at + intervalMs
  }

  /** How a refill ends, from the lease on. A returned product was written with its time to live and the lease given
      back after it; a database error writes nothing and gives the lease back. A Redis error is a command without an
      answer, or a time to live that Redis refuses. */
  ghost predicate Refill(commands: seq<Command>, cfg: Config, result: Result<Product, Failure>) {
    && commands != [] && commands[0].Won? && commands[0].until == commands[0].at + cfg.leaseMs
    && var owner := commands[0].owner;
      match result
      case Ok(p) =>
        && |commands| == 3 && commands[1].Filled? && commands[1].product == p && commands[0].at <= commands[1].at
        && commands[1].until == commands[1].at + cfg.ttlMs && commands[2] == GaveBack(owner)
      case Err(DatabaseError) => commands[1..] == [GaveBack(owner)]
      case Err(_) =>
        || commands[1..] == [Unanswered] || commands[1..] == [Unanswered, Unanswered]
        || commands[1..] == [Unanswered, GaveBack(owner)]
        || (|commands| == 3 && commands[1].Filled? && commands[1].until == commands[1].at + cfg.ttlMs
            && commands[2] == Unanswered)
        || (cfg.ttlMs <= 0 && commands[1..] == [GaveBack(owner)])
  }

  ghost predicate Polled(commands: seq<Command>, value: Result<Option<Product>, Failure>) {
    match value
    case Ok(None) => InVain(commands)
    case Ok(Some(product)) => EndsWithHit(commands, product)
    case Err(_) => EndsUnanswered(commands)
  }

  lemma NothingPolled(start: seq<Command>, intervalMs: nat)
    ensures InVain(start[|start|..]) && Spaced(start[|start|..], intervalMs) && Polled(start[|start|..], Ok(None))
  {
  }

  lemma CommandAppended(sent: seq<Command>, c: Command)
    requires InVain(sent)
    ensures c.Read? && c.hit.None? ==> InVain(sent + [c])
    ensures c.Read? && c.hit.Some? ==> EndsWithHit(sent + [c], c.hit.value)
    ensures c == Unanswered ==> EndsUnanswered(sent + [c])
  {
    assert (sent + [c])[..|sent|] == sent;
  }

  lemma SpacedAppended(sent: seq<Command>, c: Command, intervalMs: nat)
    requires Spaced(sent, intervalMs)
    requires sent != [] && sent[|sent| - 1].Read? && c.Read? ==> sent[|sent| - 1].at + intervalMs <= c.at
    ensures Spaced(sent + [c], intervalMs)
  {
  }

  /** One more command of the poll. */
  lemma PollStep(start: seq<Command>, before: seq<Command>, c: Command, intervalMs: nat)
    requires start <= before && InVain(before[|start|..]) && Spaced(before[|start|..], intervalMs)
    requires |before| > |start| && before[|before| - 1].Read? && c.Read? ==>
        before[|before| - 1].at + intervalMs <= c.at
    ensures start <= before + [c]
    ensures var sent := (before + [c])[|start|..];
      && Spaced(sent, intervalMs)
      && (c.Read? && c.hit.None? ==> InVain(sent) && Polled(sent, Ok(None)))
      && (c.Read? && c.hit.Some? ==> Polled(sent, Ok(c.hit)))
      && (c == Unanswered ==> Polled(sent, Err(RedisError)))
  {
    var sent := before[|start|..];
    assert (before + [c])[|start|..] == sent + [c];
    assert sent != [] ==> sent[|sent| - 1] == before[|before| - 1];
    hide InVain, Spaced, EndsWithHit, EndsUnanswered;
    CommandAppended(sent, c);
    SpacedAppended(sent, c, intervalMs);
  }

  /** Polls until the cache answers, Redis fails, or the deadline has passed. A reply that comes after the deadline
      still counts. */
  method PollForCacheValue(store: Store, maxWaitMs: int, pollIntervalMs: nat)
    returns (value: Result<Option<Product>, Failure>)
    modifies store
    ensures value == Ok(None) ==> store.clock >= old(store.clock) + maxWaitMs
    ensures value.Ok? && value.value.Some? ==> store.Caches(value.value.value)
    ensures value.Err? ==> value.error == RedisError
    ensures old(store.trace) <= store.trace
    ensures Polled(store.trace[|old(store.trace)|..], value)
    ensures Spaced(store.trace[|old(store.trace)|..], pollIntervalMs)
    ensures value == Ok(None) && maxWaitMs > 0 ==> |store.trace| > |old(store.trace)|
    ensures store.clock >= old(store.clock)
  {
    hide Polled, InVain, Spaced, EndsWithHit, EndsUnanswered;
    var deadline := store.clock + maxWaitMs;
    ghost var start := store.trace;
    NothingPolled(start, pollIntervalMs);
    while store.clock < deadline
      invariant store.clock >= old(store.clock) && start <= store.trace
      invariant |store.trace| == |start| ==> store.clock == old(store.clock)
      invariant InVain(store.trace[|start|..]) && Polled(store.trace[|start|..], Ok(None))
      invariant Spaced(store.trace[|start|..], pollIntervalMs)
      invariant |store.trace| > |start| && store.trace[|store.trace| - 1].Read? ==>
          store.trace[|store.trace| - 1].at + pollIntervalMs <= store.clock
      decreases deadline - store.clock
    {
      ghost var before := store.trace;
      var answered := store.Send();
      if !answered {
        PollStep(start, before, Unanswered, pollIntervalMs);
        return Err(RedisError);
      }
      var cached := store.Get();
      PollStep(start, before, Read(cached, store.clock), pollIntervalMs);
      if cached.Some? {
        return Ok(cached);
      }
      // a timer takes at least one millisecond
      store.Await(if pollIntervalMs == 0 then 1 else pollIntervalMs);
    }
    return Ok(None);
  }

  /** What the call sent and had answered, over all its attempts. */
  ghost predicate Sent(commands: seq<Command>, cfg: Config, databaseCalls: nat, result: Result<Product, Failure>) {
    if databaseCalls == 1 then
      exists n :: 0 <= n <= |commands| && InVain(commands[..n]) && Refill(commands[n..], cfg, result)
    else if result.Ok? then EndsWithHit(commands, result.value)
    else if result == Err(RedisError) then EndsUnanswered(commands) || (cfg.leaseMs <= 0 && InVain(commands))
    else InVain(commands)
  }

  lemma Since(start: seq<Command>, more: seq<Command>)
    ensures start <= start + more && (start + more)[|start|..] == more
  {
  }

  lemma NothingSent(start: seq<Command>, cfg: Config)
    ensures var end := start + [Unanswered]; start <= end && Sent(end[|start|..], cfg, 0, Err(RedisError))
  {
    Since(start, [Unanswered]);
    assert [Unanswered][..0] == [];
  }

  lemma ReadSent(start: seq<Command>, read: Command, cfg: Config)
    requires read.Read?
    ensures var end := start + [read];
      && start <= end
      && (read.hit.Some? ==> Sent(end[|start|..], cfg, 0, Ok(read.hit.value)))
      && (read.hit.None? && cfg.leaseMs <= 0 ==> Sent(end[|start|..], cfg, 0, Err(RedisError)))
  {
    Since(start, [read]);
    assert [read][..0] == [];
  }

  lemma ThenNothingSent(start: seq<Command>, read: Command, cfg: Config)
    requires read.Read? && read.hit.None?
    ensures var end := start + [read] + [Unanswered];
      start <= end && Sent(end[|start|..], cfg, 0, Err(RedisError))
  {
    var end := start + [read] + [Unanswered];
    assert end[|start|..] == [read, Unanswered] && [read, Unanswered][..1] == [read];
  }

  lemma InVainAppended(vain: seq<Command>, more: seq<Command>)
    requires InVain(vain)
    ensures InVain(more) ==> InVain(vain + more)
    ensures forall product :: EndsWithHit(more, product) ==> EndsWithHit(vain + more, product)
    ensures EndsUnanswered(more) ==> EndsUnanswered(vain + more)
  {
    var all := vain + more;
    if more != [] {
      assert all[..|all| - 1] == vain + more[..|more| - 1];
    }
  }

  lemma SentAppended(vain: seq<Command>, more: seq<Command>, cfg: Config, databaseCalls: nat,
                     result: Result<Product, Failure>)
    requires InVain(vain) && Sent(more, cfg, databaseCalls, result)
    ensures Sent(vain + more, cfg, databaseCalls, result)
  {
    hide InVain, EndsWithHit, EndsUnanswered, Refill;
    InVainAppended(vain, more);
    if databaseCalls == 1 {
      var all, n :| all == vain + more && 0 <= n <= |more| && InVain(more[..n]) && Refill(more[n..], cfg, result);
      InVainAppended(vain, more[..n]);
      assert all[..|vain| + n] == vain + more[..n] && all[|vain| + n..] == more[n..];
    }
  }

  lemma SentLater(start: seq<Command>, mid: seq<Command>, end: seq<Command>, cfg: Config, databaseCalls: nat,
                  result: Result<Product, Failure>)
    requires start <= mid <= end && InVain(mid[|start|..]) && Sent(end[|mid|..], cfg, databaseCalls, result)
    ensures Sent(end[|start|..], cfg, databaseCalls, result)
  {
    assert end[|start|..] == mid[|start|..] + end[|mid|..];
    SentAppended(mid[|start|..], end[|mid|..], cfg, databaseCalls, result);
    hide *;
  }

  /** After a cache read that found nothing and a lease not won, a poll in vain is one more attempt in vain. */
  lemma PolledSent(start: seq<Command>, read: Command, asked: seq<Command>, end: seq<Command>, cfg: Config,
                   value: Result<Option<Product>, Failure>)
    requires read.Read? && read.hit.None? && asked == start + [read, Lost] && asked <= end
    requires Polled(end[|asked|..], value) && (value.Err? ==> value.error == RedisError)
    ensures start <= end
    ensures match value
      case Ok(None) => InVain(end[|start|..]) && Sent(end[|start|..], cfg, 0, Err(GaveUp))
      case Ok(Some(product)) => Sent(end[|start|..], cfg, 0, Ok(product))
      case Err(_) => Sent(end[|start|..], cfg, 0, Err(RedisError))
  {
    Since(start, [read, Lost]);
    var result :=
      if value.Err? then Err(RedisError) else if value.value.Some? then Ok(value.value.value) else Err(GaveUp);
    assert asked[|start|..] == [read, Lost];
    SentLater(start, asked, end, cfg, 0, result);
  }

  lemma RefillSent(start: seq<Command>, read: Command, won: Command, end: seq<Command>, cfg: Config,
                   result: Result<Product, Failure>)
    requires read.Read? && read.hit.None? && start + [read] + [won] <= end
    requires Refill([won] + end[|start| + 2..], cfg, result)
    ensures start <= end && Sent(end[|start|..], cfg, 1, result)
  {
    var sent := end[|start|..];
    assert sent[..1] == [read] && sent[1..] == [won] + end[|start| + 2..];
  }

  /** The lease holder's `try` and `finally`. */
  method RefillAndRelease(store: Store, cfg: Config, database: Result<Product, Failure>, owner: nat, ghost at: int)
    returns (result: Result<Product, Failure>)
    requires database.Err? ==> database.error == DatabaseError
    requires at <= store.clock
    modifies store
    ensures result == database || result == Err(RedisError)
    ensures cfg.ttlMs <= 0 ==> result.Err?
    ensures store.clock >= old(store.clock) && old(store.trace) <= store.trace
    ensures Refill([Won(owner, at, at + cfg.leaseMs)] + store.trace[|old(store.trace)|..], cfg, result)
  {
    ghost var start, wrote := store.trace, [];
    store.Await(0);
    result := database;
    if database.Ok? {
      var answered := store.Send();
      if answered && cfg.ttlMs > 0 {
        store.Set(database.value, cfg.ttlMs);
        wrote := [Filled(database.value, store.clock, store.clock + cfg.ttlMs)];
      } else {
        result := Err(RedisError);
        wrote := if answered then [] else [Unanswered];
      }
    }
    assert store.trace[|start|..] == wrote;
    var answered := store.Send();
    assert !answered ==> store.trace[|start|..] == wrote + [Unanswered];
    if !answered {
      return Err(RedisError);
    }
    store.ReleaseIfOwner(owner);
    assert store.trace[|start|..] == wrote + [GaveBack(owner)];
  }

  /** Whatever other processes do, and whatever fails: at most one database read; a product returned after it is the
      one it gave, written to the cache with its time to live before the lease was given back; a product returned
      without it is what the cache held when it last answered; a database error surfaces only from it; no attempt
      beyond `maxAttempts`; and giving up means that the last attempt was over, each of them waited for, and the
      database never read. */
  method GetProduct(store: Store, cfg: Config, pollIntervalMs: nat, database: Result<Product, Failure>, owners: nat,
                    attempt: nat)
    returns (result: Result<Product, Failure>, databaseCalls: nat, attempts: nat)
    requires 1 <= attempt
    requires database.Err? ==> database.error == DatabaseError
    modifies store
    ensures databaseCalls <= 1 && (cfg.leaseMs <= 0 ==> databaseCalls == 0)
    ensures databaseCalls == 1 ==> result == database || result == Err(RedisError)
    ensures result == Err(DatabaseError) ==> databaseCalls == 1
    ensures databaseCalls == 1 && cfg.ttlMs <= 0 ==> result.Err?
    ensures attempt <= attempts && (attempts == attempt || attempts <= cfg.maxAttempts)
    ensures result == Err(GaveUp) ==> databaseCalls == 0 && attempts >= cfg.maxAttempts
    ensures result == Err(GaveUp) ==>
      store.clock >= old(store.clock) + (attempts - attempt + 1) * (cfg.leaseMs + 250)
    ensures databaseCalls == 0 && result.Ok? ==> store.Caches(result.value)
    ensures old(store.trace) <= store.trace
    ensures Sent(store.trace[|old(store.trace)|..], cfg, databaseCalls, result)
    ensures result != Err(Crashed) && store.clock >= old(store.clock)
    decreases cfg.maxAttempts - attempt
  {
    hide Sent, Refill, InVain, Polled;
    databaseCalls, attempts := 0, attempt;
    ghost var start := store.trace;
    var answered := store.Send();
    NothingSent(start, cfg);
    if !answered {
      return Err(RedisError), 0, attempt;
    }
    var cached := store.Get();
    ghost var read := Read(cached, store.clock);
    ReadSent(start, read, cfg);
    if cached.Some? {
      return Ok(cached.value), 0, attempt;
    }
    answered := store.Send();
    ThenNothingSent(start, Read(None, read.at), cfg);
    if !answered || cfg.leaseMs <= 0 {
      return Err(RedisError), 0, attempt;
    }
    var owner := owners + attempt;
    var acquired := store.SetLease(owner, cfg.leaseMs);
    ghost var asked := store.trace;
    if acquired {
      ghost var won := Won(owner, store.clock, store.clock + cfg.leaseMs);
      result := RefillAndRelease(store, cfg, database, owner, store.clock);
      RefillSent(start, read, won, store.trace, cfg, result);
      return result, 1, attempt;
    }
    assert asked == start + [read, Lost];
    var value := PollForCacheValue(store, cfg.leaseMs + POLL_SLACK_MS, pollIntervalMs);
    PolledSent(start, read, asked, store.trace, cfg, value);
    if value.Err? {
      return Err(value.error), 0, attempt;
    }
    if value.value.Some? {
      return Ok(value.value.value), 0, attempt;
    }
    if attempt >= cfg.maxAttempts {
      return Err(GaveUp), 0, attempt;
    }
    ghost var first := store.trace;
    result, databaseCalls, attempts := GetProduct(store, cfg, pollIntervalMs, database, owners, attempt + 1);
    SentLater(start, first, store.trace, cfg, databaseCalls, result);
    assert (attempts - attempt + 1) * (cfg.leaseMs + 250)
      == (attempts - (attempt + 1) + 1) * (cfg.leaseMs + 250) + (cfg.leaseMs + 250);
  }
}
