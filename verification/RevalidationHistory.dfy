/** What the history of a run alone says about a stale-while-revalidate cache: which load a caller is served, when it
    counts as fresh, and when a refresh of it is started. */
module RevalidationHistory {
  import opened Wrappers
  import opened Products
  import opened StaleWhileRevalidate

  /** A product the database returned, and when. */
  datatype DatabaseRead = DatabaseRead(product: Product, at: int)

  /** A product in the cache: when the database returned it, and when Redis stored it. */
  datatype Load = Load(product: Product, readAt: int, storedAt: int)

  /** What a caller found in the cache, and when: a load of the run, or the entry from before it. */
  datatype Look = Look(load: Option<Load>, at: int)

  /** The key the caller asked for. */
  function KeyOf(cfg: Config, st: State, turns: seq<Turn>, c: nat): nat {
    if turns == [] then 0 else
      var prefix, t := turns[..|turns| - 1], turns[|turns| - 1];
      if t.GetProduct? && |Run(cfg, st, prefix).callers| == c then t.key else KeyOf(cfg, st, prefix, c)
  }

  /** The key of the caller whose decision started the refresh. */
  function RefreshKeyOf(cfg: Config, st: State, turns: seq<Turn>, r: nat): nat {
    if turns == [] then 0 else
      var prefix, t := turns[..|turns| - 1], turns[|turns| - 1];
      if t.Decide? && |Run(cfg, st, prefix).refreshes| == r < |Run(cfg, st, turns).refreshes|
      then KeyOf(cfg, st, prefix, t.caller)
      else RefreshKeyOf(cfg, st, prefix, r)
  }

  function ColdRead(cfg: Config, st: State, turns: seq<Turn>, c: nat): Option<DatabaseRead> {
    if turns == [] then None else
      var prefix, t := turns[..|turns| - 1], turns[|turns| - 1];
      if t.ColdReturns? && t.caller == c && Enabled(cfg, Run(cfg, st, prefix), t)
      then Some(DatabaseRead(t.product, Run(cfg, st, prefix).clock))
      else ColdRead(cfg, st, prefix, c)
  }

  function RefreshRead(cfg: Config, st: State, turns: seq<Turn>, r: nat): Option<DatabaseRead> {
    if turns == [] then None else
      var prefix, t := turns[..|turns| - 1], turns[|turns| - 1];
      if t.RefreshReturns? && t.refresh == r && Enabled(cfg, Run(cfg, st, prefix), t)
      then Some(DatabaseRead(t.product, Run(cfg, st, prefix).clock))
      else RefreshRead(cfg, st, prefix, r)
  }

  /** The latest load of each key. */
  function Loads(cfg: Config, st: State, turns: seq<Turn>): map<nat, Load> {
    if turns == [] then map[] else
      var prefix, t := turns[..|turns| - 1], turns[|turns| - 1];
      var e, loads := Run(cfg, st, prefix), Loads(cfg, st, prefix);
      if !Enabled(cfg, e, t) then loads
      else match t
        case ColdStored(c) => Loaded(loads, KeyOf(cfg, st, prefix, c), ColdRead(cfg, st, prefix, c), e.clock)
        case RefreshStored(r) =>
          Loaded(loads, RefreshKeyOf(cfg, st, prefix, r), RefreshRead(cfg, st, prefix, r), e.clock)
        case _ => loads
  }

  function Loaded(loads: map<nat, Load>, key: nat, read: Option<DatabaseRead>, now: int): map<nat, Load> {
    match read
    case Some(r) => loads[key := Load(r.product, r.at, now)]
    case None => loads
  }

  /** What the caller found when Redis answered it. */
  function Saw(cfg: Config, st: State, turns: seq<Turn>, c: nat): Option<Look> {
    if turns == [] then None else
      var prefix, t := turns[..|turns| - 1], turns[|turns| - 1];
      if t == RedisAnswers(c) && Enabled(cfg, Run(cfg, st, prefix), t) then
        var loads, key := Loads(cfg, st, prefix), KeyOf(cfg, st, prefix, c);
        Some(Look(if key in loads then Some(loads[key]) else None, Run(cfg, st, prefix).clock))
      else Saw(cfg, st, prefix, c)
  }

  // ---- The state against its history ----

  /** Every key holds its latest load, fresh until `freshMs` after the database returned it, or what it held at the
      start. */
  ghost predicate RedisTold(cfg: Config, start: map<nat, Entry>, redis: map<nat, Entry>, loads: map<nat, Load>) {
    && (forall key :: key in redis <==> key in start || key in loads)
    && (forall key :: key in redis ==> redis[key] == EntryTold(cfg, start, loads, key))
  }

  function EntryTold(cfg: Config, start: map<nat, Entry>, loads: map<nat, Load>, key: nat): Entry
    requires key in loads || key in start
  {
    if key in loads then Entry(loads[key].product, loads[key].readAt + cfg.freshMs, loads[key].storedAt)
    else start[key]
  }

  predicate LookTold(cfg: Config, start: map<nat, Entry>, key: nat, look: Look, entry: Entry) {
    match look.load
    case Some(load) => entry == Entry(load.product, load.readAt + cfg.freshMs, load.storedAt)
    case None => key in start && entry == start[key]
  }

  predicate CallerTold(cfg: Config, start: map<nat, Entry>, caller: Caller, key: nat, read: Option<DatabaseRead>,
                       look: Option<Look>)
  {
    && caller.key == key
    && match caller.phase
       case Got(entry, age) =>
         && look.Some? && LookTold(cfg, start, key, look.value, entry)
         && age == look.value.at - entry.storedAt && age < cfg.staleMs
       case ColdWriting(p, freshUntil) =>
         read.Some? && read.value.product == p && freshUntil == read.value.at + cfg.freshMs
       case Served(p, FromDatabase) => read.Some? && read.value.product == p
       case _ => true
  }

  predicate RefreshTold(cfg: Config, refresh: Refresh, key: nat, read: Option<DatabaseRead>) {
    && refresh.key == key
    && (refresh.phase.Writing? ==>
          && read.Some? && read.value.product == refresh.phase.product
          && refresh.phase.freshUntil == read.value.at + cfg.freshMs)
  }

  ghost predicate CallersTold(cfg: Config, st: State, turns: seq<Turn>) {
    var e := Run(cfg, st, turns);
    forall c: nat :: c < |e.callers| ==>
      CallerTold(cfg, st.redis, e.callers[c], KeyOf(cfg, st, turns, c), ColdRead(cfg, st, turns, c),
                 Saw(cfg, st, turns, c))
  }

  ghost predicate RefreshesTold(cfg: Config, st: State, turns: seq<Turn>) {
    var e := Run(cfg, st, turns);
    forall r: nat :: r < |e.refreshes| ==>
      RefreshTold(cfg, e.refreshes[r], RefreshKeyOf(cfg, st, turns, r), RefreshRead(cfg, st, turns, r))
  }

  ghost predicate Told(cfg: Config, st: State, turns: seq<Turn>) {
    && RedisTold(cfg, st.redis, Run(cfg, st, turns).redis, Loads(cfg, st, turns))
    && CallersTold(cfg, st, turns) && RefreshesTold(cfg, st, turns)
  }

  lemma StoredTold(cfg: Config, start: map<nat, Entry>, redis: map<nat, Entry>, loads: map<nat, Load>, key: nat,
                   read: DatabaseRead, now: int)
    requires RedisTold(cfg, start, redis, loads)
    ensures RedisTold(cfg, start, redis[key := Entry(read.product, read.at + cfg.freshMs, now)],
                      Loaded(loads, key, Some(read), now))
  {
  }

  /** Only the two stores write Redis. */
  lemma TurnWrites(cfg: Config, st: State, t: Turn)
    ensures Apply(cfg, st, t).redis ==
      if !Enabled(cfg, st, t) then st.redis
      else match t
        case ColdStored(c) =>
          st.redis[st.callers[c].key :=
            Entry(st.callers[c].phase.product, st.callers[c].phase.freshUntil, st.clock)]
        case RefreshStored(r) =>
          st.redis[st.refreshes[r].key :=
            Entry(st.refreshes[r].phase.product, st.refreshes[r].phase.freshUntil, st.clock)]
        case _ => st.redis
  {
  }

  lemma TurnKeepsRedis(cfg: Config, st: State, turns: seq<Turn>)
    requires turns != [] && Told(cfg, st, turns[..|turns| - 1])
    ensures RedisTold(cfg, st.redis, Run(cfg, st, turns).redis, Loads(cfg, st, turns))
  {
    var prefix, t := turns[..|turns| - 1], turns[|turns| - 1];
    var e := Run(cfg, st, prefix);
    TurnWrites(cfg, e, t);
    hide RedisTold, Apply, Loaded, KeyOf, RefreshKeyOf, ColdRead, RefreshRead, Saw;
    if Enabled(cfg, e, t) {
      match t
      case ColdStored(c) =>
        StoredTold(cfg, st.redis, e.redis, Loads(cfg, st, prefix), KeyOf(cfg, st, prefix, c),
                   ColdRead(cfg, st, prefix, c).value, e.clock);
      case RefreshStored(r) =>
        StoredTold(cfg, st.redis, e.redis, Loads(cfg, st, prefix), RefreshKeyOf(cfg, st, prefix, r),
                   RefreshRead(cfg, st, prefix, r).value, e.clock);
      case _ =>
    }
  }

  lemma TurnKeepsCallers(cfg: Config, st: State, turns: seq<Turn>)
    requires turns != [] && Told(cfg, st, turns[..|turns| - 1])
    ensures CallersTold(cfg, st, turns)
  {
  }

  lemma TurnKeepsRefreshesTold(cfg: Config, st: State, turns: seq<Turn>)
    requires turns != [] && Told(cfg, st, turns[..|turns| - 1])
    ensures RefreshesTold(cfg, st, turns)
  {
  }

  lemma {:induction false} RunTold(cfg: Config, st: State, turns: seq<Turn>)
    requires Fresh(st)
    ensures Told(cfg, st, turns)
  {
    if turns != [] {
      RunTold(cfg, st, turns[..|turns| - 1]);
      TurnKeepsRedis(cfg, st, turns);
      TurnKeepsCallers(cfg, st, turns);
      TurnKeepsRefreshesTold(cfg, st, turns);
      hide RedisTold, CallersTold, RefreshesTold;
    }
  }

  // ---- What a caller sees ----

  /** In every run: a caller finds the key's latest load exactly until `staleMs` after Redis stored it; otherwise it
      reads the database. */
  lemma LoadFoundIff(cfg: Config, st: State, turns: seq<Turn>, c: nat)
    requires Fresh(st) && Enabled(cfg, Run(cfg, st, turns), RedisAnswers(c))
    requires KeyOf(cfg, st, turns, c) in Loads(cfg, st, turns)
    ensures var e, load := Run(cfg, st, turns), Loads(cfg, st, turns)[KeyOf(cfg, st, turns, c)];
      var phase := Apply(cfg, e, RedisAnswers(c)).callers[c].phase;
      if e.clock < load.storedAt + cfg.staleMs then
        phase.Got? && phase.entry.product == load.product && phase.age == e.clock - load.storedAt
      else phase == ColdDatabase
  {
    RunTold(cfg, st, turns);
    hide Run, Loads, KeyOf, RefreshesTold;
    assert RedisTold(cfg, st.redis, Run(cfg, st, turns).redis, Loads(cfg, st, turns));
  }

  lemma DecideRefreshing(cfg: Config, e: State, c: nat)
    requires Enabled(cfg, e, Decide(c))
    ensures c < |e.callers| == |Apply(cfg, e, Decide(c)).callers|
    ensures e.callers[c].phase.entry.freshUntil > e.clock ==> Apply(cfg, e, Decide(c)).refreshing == e.refreshing
    ensures e.callers[c].phase.entry.freshUntil <= e.clock ==>
      Apply(cfg, e, Decide(c)).refreshes == e.refreshes
        + if e.callers[c].key in e.refreshing then [] else [Refresh(e.callers[c].key, InDatabase, false)]
  {
  }

  /** In every run: a caller that found a load of the run is served its product, stored for less than `staleMs` when it
      was found. Decided before `freshMs` after the database returned that product, nothing is started; from then on,
      exactly one refresh of the key is running, started now, with its database read, if none was running. */
  lemma DecidesByReadTime(cfg: Config, st: State, turns: seq<Turn>, c: nat)
    requires Fresh(st) && Enabled(cfg, Run(cfg, st, turns), Decide(c))
    ensures Saw(cfg, st, turns, c).Some?
    ensures Saw(cfg, st, turns, c).value.load.Some? ==>
      var before, look := Run(cfg, st, turns), Saw(cfg, st, turns, c).value;
      var after, load, key := Apply(cfg, before, Decide(c)), look.load.value, KeyOf(cfg, st, turns, c);
      && c < |after.callers|
      && after.callers[c].phase == Served(load.product, FromCache(look.at - load.storedAt))
      && look.at < load.storedAt + cfg.staleMs
      && (if before.clock < load.readAt + cfg.freshMs
          then after.refreshes == before.refreshes && after.refreshing == before.refreshing
          else
            && (exists r: nat :: Running(after, r, key) && forall q: nat :: Running(after, q, key) ==> q == r)
            && after.refreshes == before.refreshes
               + if exists r: nat :: Running(before, r, key) then [] else [Refresh(key, InDatabase, false)])
  {
    RunTold(cfg, st, turns);
    RunSafe(cfg, st, turns);
    StaleServeRefreshes(cfg, st, turns, c);
    DecideRefreshing(cfg, Run(cfg, st, turns), c);
    assert CallersTold(cfg, st, turns);
    assert CallerTold(cfg, st.redis, Run(cfg, st, turns).callers[c], KeyOf(cfg, st, turns, c),
                      ColdRead(cfg, st, turns, c), Saw(cfg, st, turns, c));
    assert RefreshInv(Run(cfg, st, turns));
    hide Apply, Running, CallersTold, Run, ServedInTime, Loads, KeyOf, Saw, ColdRead, RefreshesTold, RedisTold;
  }

  /** In every run: a caller that was not served from the cache got what the database last returned to it. */
  lemma ColdCallerServed(cfg: Config, st: State, turns: seq<Turn>, c: nat)
    requires Fresh(st) && c < |Run(cfg, st, turns).callers|
    ensures var phase := Run(cfg, st, turns).callers[c].phase;
      phase.Served? && phase.source.FromDatabase? ==>
        ColdRead(cfg, st, turns, c).Some? && ColdRead(cfg, st, turns, c).value.product == phase.value
  {
    RunTold(cfg, st, turns);
    hide Run, ColdRead, KeyOf, Saw;
  }

  /** One of the caller's awaits was rejected. */
  function Rejected(cfg: Config, st: State, turns: seq<Turn>, c: nat): bool {
    turns != [] &&
    var prefix, t := turns[..|turns| - 1], turns[|turns| - 1];
    Rejected(cfg, st, prefix, c) || (t == ColdFails(c) && Enabled(cfg, Run(cfg, st, prefix), t))
  }

  /** In every run: a caller's call throws exactly if one of its own awaits was rejected, never for a refresh. */
  lemma {:induction false} ThrowsIffRejected(cfg: Config, st: State, turns: seq<Turn>, c: nat)
    requires Fresh(st)
    ensures if c < |Run(cfg, st, turns).callers| then
        Run(cfg, st, turns).callers[c].phase.Failed? <==> Rejected(cfg, st, turns, c)
      else !Rejected(cfg, st, turns, c)
  {
    if turns != [] {
      ThrowsIffRejected(cfg, st, turns[..|turns| - 1], c);
    }
  }

  // ---- Left alone ----

  /** A caller that finds nothing reads the database, stores what it got, fresh until `freshMs` after the read, and is
      served it. */
  lemma ColdAlone(cfg: Config, e: State, c: nat, p: Product, took: nat)
    requires c < |e.callers| && e.callers[c].phase.Reading? && !Live(cfg, e, e.callers[c].key) && cfg.staleMs > 0
    ensures var read := Apply(cfg, Apply(cfg, e, RedisAnswers(c)), ColdReturns(c, p));
      var end := Apply(cfg, Apply(cfg, read, Tick(took)), ColdStored(c));
      && c < |end.callers| && end.callers[c].phase == Served(p, FromDatabase)
      && end.redis == e.redis[e.callers[c].key := Entry(p, e.clock + cfg.freshMs, e.clock + took)]
  {
  }

  /** A background refresh reads the database, stores what it got, and is over. */
  lemma RefreshAlone(cfg: Config, e: State, r: nat, p: Product, took: nat)
    requires r < |e.refreshes| && e.refreshes[r].phase.InDatabase? && !e.refreshes[r].cleared && cfg.staleMs > 0
    ensures var read := Apply(cfg, e, RefreshReturns(r, p));
      var stored := Apply(cfg, Apply(cfg, read, Tick(took)), RefreshStored(r));
      var end := Apply(cfg, stored, RefreshClears(r));
      && end.redis == e.redis[e.refreshes[r].key := Entry(p, e.clock + cfg.freshMs, e.clock + took)]
      && end.refreshing == e.refreshing - {e.refreshes[r].key} && end.callers == e.callers
  {
  }
}
