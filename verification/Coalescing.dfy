/** In-process request coalescing: one shared fetch per key, under every interleaving of the event loop's turns. */
module Coalescing {
  import opened Wrappers
  import opened Products

  datatype Failure = Rejected

  /** The shared promise of one key, between its awaits. */
  datatype FetchPhase =
    | ReadingCache
    | InDatabase
    | Writing(product: Product)
    | Settled(result: Result<Product, Failure>)

  /** `cleared`: the caller that created the promise has run its `finally`. */
  datatype Fetch = Fetch(key: nat, phase: FetchPhase, cleared: bool)

  datatype Caller = Caller(fetch: nat, creator: bool, outcome: Option<Result<Product, Failure>>)

  datatype State = State(cache: map<nat, Product>, inFlight: map<nat, nat>, fetches: seq<Fetch>, callers: seq<Caller>)

  /** One turn of the event loop. `Fails` is a rejection of the await a fetch is at; `Evict` is the cache entry's
      expiry. */
  datatype Turn =
    | GetProduct(key: nat)
    | CacheAnswers(fetch: nat)
    | DatabaseReturns(fetch: nat, product: Product)
    | CacheWritten(fetch: nat)
    | Fails(fetch: nat)
    | CallerResumes(caller: nat)
    | Evict(key: nat)

  predicate Enabled(st: State, t: Turn) {
    match t
    case GetProduct(_) => true
    case CacheAnswers(f) => f < |st.fetches| && st.fetches[f].phase.ReadingCache?
    case DatabaseReturns(f, _) => f < |st.fetches| && st.fetches[f].phase.InDatabase?
    case CacheWritten(f) => f < |st.fetches| && st.fetches[f].phase.Writing?
    case Fails(f) => f < |st.fetches| && !st.fetches[f].phase.Settled?
    case CallerResumes(c) =>
      && c < |st.callers| && st.callers[c].outcome == None && st.callers[c].fetch < |st.fetches|
      && st.fetches[st.callers[c].fetch].phase.Settled?
    case Evict(_) => true
  }

  function SetPhase(st: State, f: nat, phase: FetchPhase): State
    requires f < |st.fetches|
  {
    st.(fetches := st.fetches[f := st.fetches[f].(phase := phase)])
  }

  function Apply(st: State, t: Turn): State {
    if !Enabled(st, t) then st
    else match t
      case GetProduct(key) =>
        if key in st.inFlight then st.(callers := st.callers + [Caller(st.inFlight[key], false, None)])
        else st.(fetches := st.fetches + [Fetch(key, ReadingCache, false)],
                 inFlight := st.inFlight[key := |st.fetches|],
                 callers := st.callers + [Caller(|st.fetches|, true, None)])
      case CacheAnswers(f) =>
        var key := st.fetches[f].key;
        SetPhase(st, f, if key in st.cache then Settled(Ok(st.cache[key])) else InDatabase)
      case DatabaseReturns(f, p) => SetPhase(st, f, Writing(p))
      case CacheWritten(f) =>
        var p := st.fetches[f].phase.product;
        SetPhase(st, f, Settled(Ok(p))).(cache := st.cache[st.fetches[f].key := p])
      case Fails(f) => SetPhase(st, f, Settled(Err(Rejected)))
      case CallerResumes(c) =>
        var f := st.callers[c].fetch;
        var served := st.(callers := st.callers[c := st.callers[c].(outcome := Some(st.fetches[f].phase.result))]);
        if st.callers[c].creator
        then served.(inFlight := st.inFlight - {st.fetches[f].key},
                     fetches := st.fetches[f := st.fetches[f].(cleared := true)])
        else served
      case Evict(key) => st.(cache := st.cache - {key})
  }

  function Run(st: State, turns: seq<Turn>): State {
    if turns == [] then st else Apply(Run(st, turns[..|turns| - 1]), turns[|turns| - 1])
  }

  predicate Fresh(st: State) {
    st.inFlight == map[] && st.fetches == [] && st.callers == []
  }

  // ---- One fetch per key ----

  /** `inFlight` holds exactly the promises whose creator has not run its `finally`. */
  ghost predicate MapInv(st: State) {
    && (forall f :: 0 <= f < |st.fetches| && !st.fetches[f].cleared ==>
          st.fetches[f].key in st.inFlight && st.inFlight[st.fetches[f].key] == f)
    && (forall key :: key in st.inFlight ==>
          st.inFlight[key] < |st.fetches| && st.fetches[st.inFlight[key]].key == key
            && !st.fetches[st.inFlight[key]].cleared)
    && (forall f :: 0 <= f < |st.fetches| && st.fetches[f].cleared ==> st.fetches[f].phase.Settled?)
  }

  /** Each fetch has one creator, which has not run its `finally` before it resumes. */
  ghost predicate CreatorInv(st: State) {
    && (forall c :: 0 <= c < |st.callers| ==> st.callers[c].fetch < |st.fetches|)
    && (forall c, d :: 0 <= c < d < |st.callers| && st.callers[c].creator && st.callers[d].creator ==>
          st.callers[c].fetch != st.callers[d].fetch)
    && (forall c :: 0 <= c < |st.callers| && st.callers[c].creator && st.callers[c].outcome == None ==>
          !st.fetches[st.callers[c].fetch].cleared)
  }

  ghost predicate OutcomeInv(st: State) {
    forall c :: 0 <= c < |st.callers| && st.callers[c].outcome.Some? ==>
      && st.callers[c].fetch < |st.fetches|
      && st.fetches[st.callers[c].fetch].phase == Settled(st.callers[c].outcome.value)
  }

  ghost predicate Inv(st: State) {
    MapInv(st) && CreatorInv(st) && OutcomeInv(st)
  }

  lemma TurnKeepsMap(st: State, t: Turn)
    requires MapInv(st) && CreatorInv(st)
    ensures MapInv(Apply(st, t))
  {
    if Enabled(st, t) && t.CallerResumes? {
      ResumeKeepsMap(st, t.caller);
    } else if t.GetProduct? {
      CallKeepsMap(st, t.key);
    }
  }

  lemma CallKeepsMap(st: State, key: nat)
    requires MapInv(st)
    ensures MapInv(Apply(st, GetProduct(key)))
  {}

  lemma ResumeKeepsMap(st: State, c: nat)
    requires MapInv(st) && CreatorInv(st) && Enabled(st, CallerResumes(c))
    ensures MapInv(Apply(st, CallerResumes(c)))
  {}

  lemma TurnKeepsCreators(st: State, t: Turn)
    requires MapInv(st) && CreatorInv(st)
    ensures CreatorInv(Apply(st, t))
  {}

  lemma TurnKeepsOutcomes(st: State, t: Turn)
    requires OutcomeInv(st)
    ensures OutcomeInv(Apply(st, t))
  {}

  lemma TurnKeepsInv(st: State, t: Turn)
    requires Inv(st)
    ensures Inv(Apply(st, t))
  {
    TurnKeepsMap(st, t);
    TurnKeepsCreators(st, t);
    TurnKeepsOutcomes(st, t);
  }

  lemma {:induction false} RunKeepsInv(st: State, turns: seq<Turn>)
    requires Inv(st)
    ensures Inv(Run(st, turns))
  {
    if turns != [] {
      RunKeepsInv(st, turns[..|turns| - 1]);
      TurnKeepsInv(Run(st, turns[..|turns| - 1]), turns[|turns| - 1]);
    }
  }

  /** In every interleaving no two database calls for one key are in flight, and every caller that has returned
      got the result its shared promise settled with. */
  lemma OneCallPerKey(st: State, turns: seq<Turn>, f: nat, g: nat)
    requires Fresh(st)
    ensures var end := Run(st, turns);
      && (f < |end.fetches| && g < |end.fetches| && end.fetches[f].phase.InDatabase?
            && end.fetches[g].phase.InDatabase? ==>
            f == g || end.fetches[f].key != end.fetches[g].key)
      && forall c :: 0 <= c < |end.callers| && end.callers[c].outcome.Some? ==>
        && end.callers[c].fetch < |end.fetches|
        && end.fetches[end.callers[c].fetch].phase == Settled(end.callers[c].outcome.value)
  {
    RunKeepsInv(st, turns);
    hide Run;
  }

  // ---- A burst ----

  function Burst(key: nat, n: nat): seq<Turn> {
    seq(n, _ => GetProduct(key))
  }

  /** Any number of calls in a row for a key that is not in flight start one fetch, and all wait for it. */
  lemma {:induction false} BurstSharesOneFetch(st: State, key: nat, n: nat)
    requires key !in st.inFlight && n > 0
    ensures var end := Run(st, Burst(key, n));
      && end.fetches == st.fetches + [Fetch(key, ReadingCache, false)]
      && |end.callers| == |st.callers| + n && key in end.inFlight && end.inFlight[key] == |st.fetches|
      && forall c :: |st.callers| <= c < |end.callers| ==>
        end.callers[c].fetch == |st.fetches| && (end.callers[c].creator <==> c == |st.callers|)
  {
    assert Burst(key, n)[..n - 1] == Burst(key, n - 1);
    if n > 1 {
      BurstSharesOneFetch(st, key, n - 1);
    } else {
      assert Run(st, Burst(key, 0)) == st;
    }
  }

  // ---- Agreement with the database ----

  /** Every product in play is the database's. */
  ghost predicate Agrees(st: State, db: map<nat, Product>) {
    && (forall key :: key in st.cache ==> key in db && st.cache[key] == db[key])
    && (forall f :: 0 <= f < |st.fetches| ==>
          match st.fetches[f].phase
          case Writing(p) => st.fetches[f].key in db && db[st.fetches[f].key] == p
          case Settled(Ok(p)) => st.fetches[f].key in db && db[st.fetches[f].key] == p
          case _ => true)
  }

  /** With an unchanging database, whatever callers get is what the slow read returns for their key. */
  lemma {:induction false} AgreesWithDatabase(st: State, turns: seq<Turn>, db: map<nat, Product>)
    requires Fresh(st) && Agrees(st, db)
    requires forall k :: 0 <= k < |turns| && turns[k].DatabaseReturns? && Enabled(Run(st, turns[..k]), turns[k]) ==>
      var key := Run(st, turns[..k]).fetches[turns[k].fetch].key; key in db && db[key] == turns[k].product
    ensures Agrees(Run(st, turns), db)
    ensures var end := Run(st, turns);
      forall c :: 0 <= c < |end.callers| && end.callers[c].outcome.Some? && end.callers[c].outcome.value.Ok? ==>
        && end.callers[c].fetch < |end.fetches| && end.fetches[end.callers[c].fetch].key in db
        && end.callers[c].outcome.value.value == db[end.fetches[end.callers[c].fetch].key]
  {
    if turns != [] {
      var prefix := turns[..|turns| - 1];
      assert forall k :: 0 <= k < |prefix| ==> prefix[..k] == turns[..k] && prefix[k] == turns[k];
      AgreesWithDatabase(st, prefix, db);
      TurnAgrees(Run(st, prefix), turns[|turns| - 1], db);
    }
    OneCallPerKey(st, turns, 0, 0);
    hide Apply;
  }

  lemma TurnAgrees(st: State, t: Turn, db: map<nat, Product>)
    requires Agrees(st, db)
    requires t.DatabaseReturns? && Enabled(st, t) ==>
      st.fetches[t.fetch].key in db && db[st.fetches[t.fetch].key] == t.product
    ensures Agrees(Apply(st, t), db)
  {}
}
