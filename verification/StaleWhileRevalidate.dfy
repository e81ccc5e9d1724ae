/** Stale-while-revalidate: a stale value is served at once, and one background refresh per key replaces it. */
module StaleWhileRevalidate {
  import opened Products

  datatype Config = Config(freshMs: int, staleMs: int)

  /** A cached entry, and when Redis stored it: the key's own expiry counts from there. */
  datatype Entry = Entry(product: Product, freshUntil: int, storedAt: int)

  datatype RefreshPhase = InDatabase | Writing(product: Product, freshUntil: int) | Ended

  /** A background refresh; `cleared` once its `finally` has run. */
  datatype Refresh = Refresh(key: nat, phase: RefreshPhase, cleared: bool)

  datatype Source = FromCache(age: int) | FromDatabase

  datatype CallerPhase =
    | Reading
    | Got(entry: Entry, age: int)
    | ColdDatabase
    | ColdWriting(product: Product, freshUntil: int)
    | Served(value: Product, source: Source)
    | Failed

  datatype Caller = Caller(key: nat, phase: CallerPhase)

  datatype State = State(
    clock: int, redis: map<nat, Entry>, refreshing: set<nat>, refreshes: seq<Refresh>, callers: seq<Caller>)

  /** One turn of the event loop, one Redis command, or time passing. */
  datatype Turn =
    | GetProduct(key: nat)
    | RedisAnswers(caller: nat)
    | Decide(caller: nat)
    | ColdReturns(caller: nat, product: Product)
    | ColdStored(caller: nat)
    | ColdFails(caller: nat)
    | RefreshReturns(refresh: nat, product: Product)
    | RefreshStored(refresh: nat)
    | RefreshFails(refresh: nat)
    | RefreshClears(refresh: nat)
    | Tick(elapsed: nat)

  predicate Live(cfg: Config, st: State, key: nat) {
    key in st.redis && st.clock < st.redis[key].storedAt + cfg.staleMs
  }

  /** Redis refuses an expiry that is not positive, so then a write can only fail. */
  predicate Enabled(cfg: Config, st: State, t: Turn) {
    match t
    case GetProduct(_) => true
    case RedisAnswers(c) => c < |st.callers| && st.callers[c].phase.Reading?
    case Decide(c) => c < |st.callers| && st.callers[c].phase.Got?
    case ColdReturns(c, _) => c < |st.callers| && st.callers[c].phase.ColdDatabase?
    case ColdStored(c) => c < |st.callers| && st.callers[c].phase.ColdWriting? && cfg.staleMs > 0
    case ColdFails(c) =>
      c < |st.callers|
        && (st.callers[c].phase.Reading? || st.callers[c].phase.ColdDatabase? || st.callers[c].phase.ColdWriting?)
    case RefreshReturns(r, _) => r < |st.refreshes| && st.refreshes[r].phase.InDatabase?
    case RefreshStored(r) => r < |st.refreshes| && st.refreshes[r].phase.Writing? && cfg.staleMs > 0
    case RefreshFails(r) => r < |st.refreshes| && !st.refreshes[r].phase.Ended?
    case RefreshClears(r) => r < |st.refreshes| && st.refreshes[r].phase.Ended? && !st.refreshes[r].cleared
    case Tick(_) => true
  }

  function SetCaller(st: State, c: nat, phase: CallerPhase): State
    requires c < |st.callers|
  {
    st.(callers := st.callers[c := st.callers[c].(phase := phase)])
  }

  function SetRefresh(st: State, r: nat, phase: RefreshPhase): State
    requires r < |st.refreshes|
  {
    st.(refreshes := st.refreshes[r := st.refreshes[r].(phase := phase)])
  }

  function Triggered(st: State, key: nat): State {
    if key in st.refreshing then st
    else st.(refreshing := st.refreshing + {key}, refreshes := st.refreshes + [Refresh(key, InDatabase, false)])
  }

  function Apply(cfg: Config, st: State, t: Turn): State {
    if !Enabled(cfg, st, t) then st
    else match t
      case GetProduct(key) => st.(callers := st.callers + [Caller(key, Reading)])
      case RedisAnswers(c) =>
        var key := st.callers[c].key;
        SetCaller(st, c, if Live(cfg, st, key) then Got(st.redis[key], st.clock - st.redis[key].storedAt)
                         else ColdDatabase)
      case Decide(c) =>
        var got := st.callers[c].phase;
        SetCaller(if got.entry.freshUntil > st.clock then st else Triggered(st, st.callers[c].key), c,
                  Served(got.entry.product, FromCache(got.age)))
      case ColdReturns(c, p) => SetCaller(st, c, ColdWriting(p, st.clock + cfg.freshMs))
      case ColdStored(c) =>
        var phase := st.callers[c].phase;
        SetCaller(st, c, Served(phase.product, FromDatabase))
          .(redis := st.redis[st.callers[c].key := Entry(phase.product, phase.freshUntil, st.clock)])
      case ColdFails(c) => SetCaller(st, c, Failed)
      case RefreshReturns(r, p) => SetRefresh(st, r, Writing(p, st.clock + cfg.freshMs))
      case RefreshStored(r) =>
        var phase := st.refreshes[r].phase;
        SetRefresh(st, r, Ended)
          .(redis := st.redis[st.refreshes[r].key := Entry(phase.product, phase.freshUntil, st.clock)])
      case RefreshFails(r) => SetRefresh(st, r, Ended)
      case RefreshClears(r) =>
        st.(refreshing := st.refreshing - {st.refreshes[r].key},
            refreshes := st.refreshes[r := st.refreshes[r].(cleared := true)])
      case Tick(elapsed) => st.(clock := st.clock + elapsed)
  }

  function Run(cfg: Config, st: State, turns: seq<Turn>): State {
    if turns == [] then st else Apply(cfg, Run(cfg, st, turns[..|turns| - 1]), turns[|turns| - 1])
  }

  predicate Fresh(st: State) {
    st.refreshing == {} && st.refreshes == [] && st.callers == []
  }

  // ---- One refresh per key ----

  /** Refresh `r` of `key` has not run its `finally`. */
  predicate Running(st: State, r: nat, key: nat) {
    r < |st.refreshes| && st.refreshes[r].key == key && !st.refreshes[r].cleared
  }

  /** `refreshInFlight` holds exactly the keys with a running refresh, and no key has two. */
  ghost predicate RefreshInv(st: State) {
    && (forall key: nat :: key in st.refreshing <==> exists r: nat :: Running(st, r, key))
    && (forall q: nat, r: nat, key: nat :: Running(st, q, key) && Running(st, r, key) ==> q == r)
    && (forall r: nat :: r < |st.refreshes| && st.refreshes[r].cleared ==> st.refreshes[r].phase.Ended?)
  }

  lemma TriggerKeepsRefreshes(st: State, key: nat)
    requires RefreshInv(st)
    ensures RefreshInv(Triggered(st, key)) && key in Triggered(st, key).refreshing
  {
    var next := Triggered(st, key);
    if key !in st.refreshing {
      assert forall r: nat, k: nat :: Running(next, r, k) <==> Running(st, r, k) || (r == |st.refreshes| && k == key);
      assert Running(next, |st.refreshes|, key);
    }
  }

  lemma ClearKeepsRefreshes(cfg: Config, st: State, r: nat)
    requires RefreshInv(st) && Enabled(cfg, st, RefreshClears(r))
    ensures RefreshInv(Apply(cfg, st, RefreshClears(r)))
  {
    var next := Apply(cfg, st, RefreshClears(r));
    assert Running(st, r, st.refreshes[r].key);
    assert forall q: nat, k: nat :: Running(next, q, k) <==> Running(st, q, k) && q != r;
  }

  lemma TurnKeepsRefreshes(cfg: Config, st: State, t: Turn)
    requires RefreshInv(st)
    ensures RefreshInv(Apply(cfg, st, t))
    ensures t.Decide? && Enabled(cfg, st, t) && st.callers[t.caller].phase.entry.freshUntil <= st.clock ==>
      st.callers[t.caller].key in Apply(cfg, st, t).refreshing
  {
    var next := Apply(cfg, st, t);
    if t.Decide? && Enabled(cfg, st, t) {
      TriggerKeepsRefreshes(st, st.callers[t.caller].key);
      var mid := Triggered(st, st.callers[t.caller].key);
      assert (next.refreshes, next.refreshing) in {(st.refreshes, st.refreshing), (mid.refreshes, mid.refreshing)};
      SameRefreshes(st, next);
      SameRefreshes(mid, next);
    } else if t.RefreshClears? && Enabled(cfg, st, t) {
      ClearKeepsRefreshes(cfg, st, t.refresh);
    } else {
      assert forall r: nat, key: nat :: Running(next, r, key) <==> Running(st, r, key);
    }
  }

  lemma SameRefreshes(st: State, next: State)
    requires RefreshInv(st)
    ensures next.refreshes == st.refreshes && next.refreshing == st.refreshing ==> RefreshInv(next)
  {
    assert next.refreshes == st.refreshes ==> forall r: nat, key: nat :: Running(next, r, key) <==> Running(st, r, key);
  }

  /** A served value had been in the cache for less than `staleMs` when it was read, or came from the database. */
  ghost predicate ServedInTime(cfg: Config, st: State) {
    forall c :: 0 <= c < |st.callers| ==>
      match st.callers[c].phase
      case Got(_, age) => age < cfg.staleMs
      case Served(_, FromCache(age)) => age < cfg.staleMs
      case _ => true
  }

  lemma {:induction false} RunSafe(cfg: Config, st: State, turns: seq<Turn>)
    requires Fresh(st)
    ensures RefreshInv(Run(cfg, st, turns)) && ServedInTime(cfg, Run(cfg, st, turns))
  {
    if turns != [] {
      RunSafe(cfg, st, turns[..|turns| - 1]);
      TurnKeepsRefreshes(cfg, Run(cfg, st, turns[..|turns| - 1]), turns[|turns| - 1]);
    }
  }

  /** In every reachable state, a caller past the fresh window is served the cached value at once, and exactly one
      refresh of its key is then running; within the window nothing is started. */
  lemma StaleServeRefreshes(cfg: Config, st: State, turns: seq<Turn>, c: nat)
    requires Fresh(st)
    requires Enabled(cfg, Run(cfg, st, turns), Decide(c))
    ensures var before, after := Run(cfg, st, turns), Apply(cfg, Run(cfg, st, turns), Decide(c));
      var got, key := before.callers[c].phase, before.callers[c].key;
      && after.callers[c].phase == Served(got.entry.product, FromCache(got.age)) && got.age < cfg.staleMs
      && (if got.entry.freshUntil > before.clock then after.refreshes == before.refreshes
          else exists r: nat :: Running(after, r, key) && forall q: nat :: Running(after, q, key) ==> q == r)
  {
    RunSafe(cfg, st, turns);
    var before, after := Run(cfg, st, turns), Apply(cfg, Run(cfg, st, turns), Decide(c));
    TurnKeepsRefreshes(cfg, before, Decide(c));
    hide Run;
  }

  /** A refresh that fails is over: once its `finally` has run, its key may be refreshed again, and Redis holds what it
      held. */
  lemma FailedRefreshIsOver(cfg: Config, st: State, turns: seq<Turn>, r: nat, key: nat)
    requires Fresh(st) && Running(Run(cfg, st, turns), r, key) && !Run(cfg, st, turns).refreshes[r].phase.Ended?
    ensures var before := Run(cfg, st, turns);
      var after := Apply(cfg, Apply(cfg, before, RefreshFails(r)), RefreshClears(r));
      && key !in after.refreshing && after.redis == before.redis && after.callers == before.callers
      && forall q: nat :: !Running(after, q, key)
  {
    RunSafe(cfg, st, turns);
    var before := Run(cfg, st, turns);
    var failed := Apply(cfg, before, RefreshFails(r));
    TurnKeepsRefreshes(cfg, before, RefreshFails(r));
    TurnKeepsRefreshes(cfg, failed, RefreshClears(r));
    hide Run, RefreshInv, Running;
    FailedIsEnded(cfg, before, r);
    hide Apply;
    var after := Apply(cfg, failed, RefreshClears(r));
    NotRunning(after, key);
  }

  lemma FailedIsEnded(cfg: Config, st: State, r: nat)
    requires r < |st.refreshes| && !st.refreshes[r].phase.Ended? && !st.refreshes[r].cleared
    ensures var failed := Apply(cfg, st, RefreshFails(r));
      var after := Apply(cfg, failed, RefreshClears(r));
      st.refreshes[r].key !in after.refreshing && after.redis == st.redis && after.callers == st.callers
  {
  }

  lemma NotRunning(st: State, key: nat)
    requires RefreshInv(st) && key !in st.refreshing
    ensures forall q: nat :: !Running(st, q, key)
  {
    hide Running;
  }

  // ---- Agreement with the database ----

  ghost predicate Agrees(st: State, db: map<nat, Product>) {
    && (forall key :: key in st.redis ==> key in db && st.redis[key].product == db[key])
    && (forall r :: 0 <= r < |st.refreshes| && st.refreshes[r].phase.Writing? ==>
          st.refreshes[r].key in db && st.refreshes[r].phase.product == db[st.refreshes[r].key])
    && (forall c :: 0 <= c < |st.callers| ==> CallerAgrees(st.callers[c], db))
  }

  predicate CallerAgrees(caller: Caller, db: map<nat, Product>) {
    match caller.phase
    case Got(entry, _) => caller.key in db && entry.product == db[caller.key]
    case ColdWriting(p, _) => caller.key in db && p == db[caller.key]
    case Served(p, _) => caller.key in db && p == db[caller.key]
    case _ => true
  }

  /** What the database read of this turn returned is what the database holds. */
  predicate ReadsDatabase(cfg: Config, st: State, t: Turn, db: map<nat, Product>) {
    Enabled(cfg, st, t) ==>
      match t
      case ColdReturns(c, p) => st.callers[c].key in db && p == db[st.callers[c].key]
      case RefreshReturns(r, p) => st.refreshes[r].key in db && p == db[st.refreshes[r].key]
      case _ => true
  }

  lemma TurnAgrees(cfg: Config, st: State, t: Turn, db: map<nat, Product>)
    requires Agrees(st, db) && ReadsDatabase(cfg, st, t, db)
    ensures Agrees(Apply(cfg, st, t), db)
  {}

  /** With an unchanging database, every value served, fresh or stale, is what the slow read returns. */
  lemma {:induction false} AgreesWithDatabase(cfg: Config, st: State, turns: seq<Turn>, db: map<nat, Product>)
    requires Fresh(st) && Agrees(st, db)
    requires forall k {:trigger turns[k]} :: 0 <= k < |turns| ==>
      ReadsDatabase(cfg, Run(cfg, st, turns[..k]), turns[k], db)
    ensures Agrees(Run(cfg, st, turns), db)
  {
    if turns != [] {
      var prefix := turns[..|turns| - 1];
      assert forall k {:trigger prefix[k]} :: 0 <= k < |prefix| ==> prefix[..k] == turns[..k] && prefix[k] == turns[k];
      AgreesWithDatabase(cfg, st, prefix, db);
      TurnAgrees(cfg, Run(cfg, st, prefix), turns[|turns| - 1], db);
    }
  }
}
