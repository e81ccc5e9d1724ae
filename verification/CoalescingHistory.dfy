/** What the history of a run alone says about a coalescing cache: what every shared promise settles with. */
module CoalescingHistory {
  import opened Wrappers
  import opened Products
  import opened Coalescing

  /** The key that the fetch's creator asked for. */
  function KeyOf(st: State, turns: seq<Turn>, f: nat): nat {
    if turns == [] then 0 else
      var prefix, t := turns[..|turns| - 1], turns[|turns| - 1];
      if t.GetProduct? && |Run(st, prefix).fetches| == f then t.key else KeyOf(st, prefix, f)
  }

  function FromDatabase(st: State, turns: seq<Turn>, f: nat): Option<Product> {
    if turns == [] then None else
      var prefix, t := turns[..|turns| - 1], turns[|turns| - 1];
      if t.DatabaseReturns? && t.fetch == f && Enabled(Run(st, prefix), t) then Some(t.product)
      else FromDatabase(st, prefix, f)
  }

  /** What the cache holds for a key: the latest product a fetch of the key wrote and nothing evicted, or what it held
      at the start. */
  function Cached(st: State, turns: seq<Turn>, key: nat): Option<Product> {
    if turns == [] then if key in st.cache then Some(st.cache[key]) else None else
      var prefix, t := turns[..|turns| - 1], turns[|turns| - 1];
      if t == Evict(key) then None
      else if t.CacheWritten? && Enabled(Run(st, prefix), t) && KeyOf(st, prefix, t.fetch) == key then
        FromDatabase(st, prefix, t.fetch)
      else Cached(st, prefix, key)
  }

  /** What the fetch's read of the cache found: nothing yet, a miss, or a product. */
  function Found(st: State, turns: seq<Turn>, f: nat): Option<Option<Product>> {
    if turns == [] then None else
      var prefix, t := turns[..|turns| - 1], turns[|turns| - 1];
      if t == CacheAnswers(f) && Enabled(Run(st, prefix), t) then Some(Cached(st, prefix, KeyOf(st, prefix, f)))
      else Found(st, prefix, f)
  }

  function Failed(st: State, turns: seq<Turn>, f: nat): bool {
    turns != [] &&
    var prefix, t := turns[..|turns| - 1], turns[|turns| - 1];
    Failed(st, prefix, f) || (t == Fails(f) && Enabled(Run(st, prefix), t))
  }

  /** The promise against its history. */
  predicate FetchTold(fetch: Fetch, key: nat, found: Option<Option<Product>>, read: Option<Product>, failed: bool) {
    && fetch.key == key
    && match fetch.phase
       case ReadingCache => !failed && found == None && read == None
       case InDatabase => !failed && found == Some(None) && read == None
       case Writing(p) => !failed && found == Some(None) && read == Some(p)
       case Settled(Ok(p)) => !failed && (found == Some(Some(p)) || (found == Some(None) && read == Some(p)))
       case Settled(Err(_)) => failed
  }

  ghost predicate FetchesTold(st: State, turns: seq<Turn>) {
    var e := Run(st, turns);
    forall f: nat ::
      if f < |e.fetches| then
        FetchTold(e.fetches[f], KeyOf(st, turns, f), Found(st, turns, f), FromDatabase(st, turns, f),
                  Failed(st, turns, f))
      else Found(st, turns, f) == None && FromDatabase(st, turns, f) == None && !Failed(st, turns, f)
  }

  ghost predicate CacheTold(st: State, turns: seq<Turn>) {
    var e := Run(st, turns);
    forall key: nat :: Cached(st, turns, key) == if key in e.cache then Some(e.cache[key]) else None
  }

  lemma TurnKeepsFetchesTold(st: State, turns: seq<Turn>)
    requires turns != [] && FetchesTold(st, turns[..|turns| - 1]) && CacheTold(st, turns[..|turns| - 1])
    ensures FetchesTold(st, turns)
  {
    hide Cached;
    var prefix, t := turns[..|turns| - 1], turns[|turns| - 1];
    if !Enabled(Run(st, prefix), t) {
      assert !t.GetProduct? && Run(st, turns) == Run(st, prefix);
      forall f: nat
        ensures KeyOf(st, turns, f) == KeyOf(st, prefix, f) && Found(st, turns, f) == Found(st, prefix, f)
        ensures FromDatabase(st, turns, f) == FromDatabase(st, prefix, f)
        ensures Failed(st, turns, f) == Failed(st, prefix, f)
      {
      }
    }
  }

  lemma TurnKeepsCacheTold(st: State, turns: seq<Turn>)
    requires turns != [] && FetchesTold(st, turns[..|turns| - 1]) && CacheTold(st, turns[..|turns| - 1])
    ensures CacheTold(st, turns)
  {
    hide Found, Failed;
  }

  lemma {:induction false} RunTold(st: State, turns: seq<Turn>)
    requires Fresh(st)
    ensures FetchesTold(st, turns) && CacheTold(st, turns)
  {
    if turns != [] {
      RunTold(st, turns[..|turns| - 1]);
      TurnKeepsFetchesTold(st, turns);
      TurnKeepsCacheTold(st, turns);
      hide FetchesTold, CacheTold;
    }
  }

  /** In every run: a caller that has returned got the product its fetch found in the cache; or, after a miss, the one
      the database gave it; or an error, exactly if one of the fetch's awaits failed. */
  lemma CallersGetWhatWasFetched(st: State, turns: seq<Turn>, c: nat)
    requires Fresh(st) && c < |Run(st, turns).callers| && Run(st, turns).callers[c].outcome.Some?
    ensures var f, outcome := Run(st, turns).callers[c].fetch, Run(st, turns).callers[c].outcome.value;
      && (outcome.Err? <==> Failed(st, turns, f))
      && (outcome.Ok? ==>
            || Found(st, turns, f) == Some(Some(outcome.value))
            || (Found(st, turns, f) == Some(None) && FromDatabase(st, turns, f) == Some(outcome.value)))
  {
    OneCallPerKey(st, turns, 0, 0);
    RunTold(st, turns);
    hide Run, Found, FromDatabase, Failed, KeyOf;
  }

  // ---- Left alone ----

  /** A fetch that misses reads the database, writes the cache and settles with the product; its creator then returns it
      and takes the key out of the map. */
  lemma FetchAlone(e: State, c: nat, p: Product)
    requires c < |e.callers| && e.callers[c].creator && e.callers[c].outcome == None
    requires e.callers[c].fetch < |e.fetches| && e.fetches[e.callers[c].fetch].phase.ReadingCache?
    requires e.fetches[e.callers[c].fetch].key !in e.cache
    ensures var f, key := e.callers[c].fetch, e.fetches[e.callers[c].fetch].key;
      var read := Apply(Apply(e, CacheAnswers(f)), DatabaseReturns(f, p));
      var end := Apply(Apply(read, CacheWritten(f)), CallerResumes(c));
      && c < |end.callers| && end.callers[c].outcome == Some(Ok(p))
      && end.cache == e.cache[key := p] && end.inFlight == e.inFlight - {key}
  {
  }
}
