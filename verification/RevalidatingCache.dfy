/** The stale-while-revalidate cache as an object: each method is one turn of the event loop. */
module RevalidatingCache {
  import opened Products
  import S = StaleWhileRevalidate

  class Cache {
    const cfg: S.Config
    var clock: int
    var redis: map<nat, S.Entry>
    var refreshInFlight: set<nat>
    var refreshes: seq<S.Refresh>
    var callers: seq<S.Caller>

    function View(): S.State
      reads this
    {
      S.State(clock, redis, refreshInFlight, refreshes, callers)
    }

    ghost predicate Valid()
      reads this
    {
      S.RefreshInv(View())
    }

    constructor (cfg: S.Config, clock: int, redis: map<nat, S.Entry>)
      ensures Valid() && S.Fresh(View()) && this.cfg == cfg && this.clock == clock && this.redis == redis
    {
      this.cfg, this.clock, this.redis := cfg, clock, redis;
      this.refreshInFlight, this.refreshes, this.callers := {}, [], [];
    }

    /** Starts a refresh unless one is running; afterwards exactly one is. */
    method TriggerBackgroundRefresh(key: nat)
      requires Valid()
      modifies this`refreshInFlight, this`refreshes
      ensures Valid() && View() == S.Triggered(old(View()), key)
      ensures exists r: nat :: S.Running(View(), r, key) && forall q: nat :: S.Running(View(), q, key) ==> q == r
    {
      S.TriggerKeepsRefreshes(View(), key);
      if key in refreshInFlight {
        return;
      }
      refreshInFlight := refreshInFlight + {key};
      refreshes := refreshes + [S.Refresh(key, S.InDatabase, false)];
    }

    /** `getProduct` once the cached entry has been parsed: serve it, and refresh behind it if it is stale. */
    method Decide(c: nat) returns (product: Product)
      requires Valid() && S.Enabled(cfg, View(), S.Decide(c))
      modifies this
      ensures Valid() && View() == S.Apply(cfg, old(View()), S.Decide(c))
      ensures product == old(callers[c].phase.entry.product)
      ensures old(callers[c].phase.entry.freshUntil) > clock ==> refreshes == old(refreshes)
    {
      ghost var before := View();
      S.TurnKeepsRefreshes(cfg, before, S.Decide(c));
      var got := callers[c].phase;
      if got.entry.freshUntil <= clock {
        TriggerBackgroundRefresh(callers[c].key);
      }
      callers := callers[c := callers[c].(phase := S.Served(got.entry.product, S.FromCache(got.age)))];
      return got.entry.product;
    }

    /** `writeEntry` of a background refresh, when Redis executes it. */
    method RefreshStored(r: nat)
      requires Valid() && S.Enabled(cfg, View(), S.RefreshStored(r))
      modifies this
      ensures Valid() && View() == S.Apply(cfg, old(View()), S.RefreshStored(r))
    {
      ghost var before := View();
      S.TurnKeepsRefreshes(cfg, before, S.RefreshStored(r));
      var phase := refreshes[r].phase;
      redis := redis[refreshes[r].key := S.Entry(phase.product, phase.freshUntil, clock)];
      refreshes := refreshes[r := refreshes[r].(phase := S.Ended)];
    }

    /** The `finally` of a refresh: its key may be refreshed again. */
    method RefreshClears(r: nat)
      requires Valid() && S.Enabled(cfg, View(), S.RefreshClears(r))
      modifies this
      ensures Valid() && View() == S.Apply(cfg, old(View()), S.RefreshClears(r))
      ensures refreshes[r].key !in refreshInFlight
    {
      ghost var before := View();
      S.TurnKeepsRefreshes(cfg, before, S.RefreshClears(r));
      refreshInFlight := refreshInFlight - {refreshes[r].key};
      refreshes := refreshes[r := refreshes[r].(cleared := true)];
    }

    /** `isRefreshing`: true exactly while a refresh of the key has not run its `finally`. */
    method IsRefreshing(key: nat) returns (refreshing: bool)
      requires Valid()
      ensures refreshing <==> exists r: nat :: S.Running(View(), r, key)
    {
      refreshing := key in refreshInFlight;
    }
  }
}
