/** The coalescing cache as an object: each method is one run-to-completion turn of the event loop. */
module CoalescingCache {
  import opened Wrappers
  import opened Products
  import C = Coalescing

  class Cache {
    var redis: map<nat, Product>
    var inFlight: map<nat, nat>
    var fetches: seq<C.Fetch>
    var callers: seq<C.Caller>

    function View(): C.State
      reads this
    {
      C.State(redis, inFlight, fetches, callers)
    }

    ghost predicate Valid()
      reads this
    {
      C.Inv(View())
    }

    constructor (redis: map<nat, Product>)
      ensures Valid() && C.Fresh(View()) && this.redis == redis
    {
      this.redis, this.inFlight, this.fetches, this.callers := redis, map[], [], [];
    }

    /** The synchronous part of `getProduct`: join the promise in flight, or register a new one before the
        first await. */
    method GetProduct(key: nat) returns (caller: nat)
      requires Valid()
      modifies this
      ensures Valid() && View() == C.Apply(old(View()), C.GetProduct(key))
      ensures caller == |old(callers)| && key in inFlight && callers[caller].fetch == inFlight[key]
      ensures |fetches| == |old(fetches)| + if key in old(inFlight) then 0 else 1
    {
      ghost var before := View();
      caller := |callers|;
      if key in inFlight {
        callers := callers + [C.Caller(inFlight[key], false, None)];
      } else {
        inFlight := inFlight[key := |fetches|];
        callers := callers + [C.Caller(|fetches|, true, None)];
        fetches := fetches + [C.Fetch(key, C.ReadingCache, false)];
      }
      C.TurnKeepsInv(before, C.GetProduct(key));
    }

    /** The answer to the GET: a hit settles the promise, a miss starts the database call. */
    method CacheAnswers(f: nat)
      requires Valid() && f < |fetches| && fetches[f].phase.ReadingCache?
      modifies this`fetches
      ensures Valid() && View() == C.Apply(old(View()), C.CacheAnswers(f))
      ensures var key := old(fetches[f].key);
        && fetches
           == old(fetches)[f := C.Fetch(key, if key in redis then C.Settled(Ok(redis[key])) else C.InDatabase, false)]
    {
      ghost var before := View();
      var key := fetches[f].key;
      var phase := C.InDatabase;
      if key in redis {
        phase := C.Settled(Ok(redis[key]));
      }
      fetches := fetches[f := fetches[f].(phase := phase)];
      C.TurnKeepsInv(before, C.CacheAnswers(f));
    }

    /** The SET has been answered: the promise settles with the product just written. */
    method CacheWritten(f: nat)
      requires Valid() && f < |fetches| && fetches[f].phase.Writing?
      modifies this`fetches, this`redis
      ensures Valid() && View() == C.Apply(old(View()), C.CacheWritten(f))
      ensures redis == old(redis[fetches[f].key := fetches[f].phase.product])
      ensures fetches == old(fetches[f := C.Fetch(fetches[f].key, C.Settled(Ok(fetches[f].phase.product)), false)])
    {
      ghost var before := View();
      var product := fetches[f].phase.product;
      redis := redis[fetches[f].key := product];
      fetches := fetches[f := fetches[f].(phase := C.Settled(Ok(product)))];
      C.TurnKeepsInv(before, C.CacheWritten(f));
    }

    /** A caller continues after its `await`; the promise's creator also runs its `finally`, which removes its own
        promise and no other. */
    method CallerResumes(c: nat) returns (outcome: Result<Product, C.Failure>)
      requires Valid() && C.Enabled(View(), C.CallerResumes(c))
      modifies this
      ensures Valid() && View() == C.Apply(old(View()), C.CallerResumes(c))
      ensures callers[c].outcome == Some(outcome) && fetches[callers[c].fetch].phase == C.Settled(outcome)
      ensures forall key :: key in old(inFlight) && key !in inFlight ==> old(inFlight)[key] == callers[c].fetch
    {
      ghost var before := View();
      var f := callers[c].fetch;
      outcome := fetches[f].phase.result;
      callers := callers[c := callers[c].(outcome := Some(outcome))];
      if callers[c].creator {
        inFlight := inFlight - {fetches[f].key};
        fetches := fetches[f := fetches[f].(cleared := true)];
      }
      C.TurnKeepsInv(before, C.CallerResumes(c));
    }
  }
}
