/** The outbox table, the simulated broker and the consumer as objects, and `claimAndPublish` over them. */
module OutboxPublisher {
  import opened Wrappers
  import opened IdLists
  import opened Outbox

  datatype BrokerMode = Succeed | Reject | Slow

  class SimulatedBroker {
    const mode: BrokerMode
    var calls: nat
    var callCounts: map<nat, nat>
    var deliveries: seq<nat>

    constructor (mode: BrokerMode)
      ensures this.mode == mode && calls == 0 && callCounts == map[] && deliveries == []
    {
      this.mode, this.calls, this.callCounts, this.deliveries := mode, 0, map[], [];
    }

    function CallCountFor(event: nat): nat
      reads this
    {
      if event in callCounts then callCounts[event] else 0
    }

    /** Counts the call, then receives the event or throws. */
    method Publish(event: nat) returns (ok: bool)
      modifies this
      ensures ok <==> mode != Reject
      ensures calls == old(calls) + 1 && callCounts == old(callCounts)[event := old(CallCountFor(event)) + 1]
      ensures deliveries == if ok then old(deliveries) + [event] else old(deliveries)
    {
      calls := calls + 1;
      callCounts := callCounts[event := CallCountFor(event) + 1];
      if mode == Reject {
        return false;
      }
      deliveries := deliveries + [event];
      return true;
    }
  }

  datatype PublishResult = NothingClaimed | Claimed(event: nat, published: bool)

  ghost predicate Oldest(rows: map<nat, Row>, now: int, e: nat) {
    && e in rows && Claimable(rows[e], now)
    && forall f :: f in rows && Claimable(rows[f], now) ==>
      rows[e].createdAt < rows[f].createdAt || (rows[e].createdAt == rows[f].createdAt && e <= f)
  }

  class OutboxStore {
    var clock: int
    var rows: map<nat, Row>

    /** `ORDER BY created_at, id LIMIT 1`. */
    method SelectCandidate(now: int) returns (candidate: Option<nat>)
      ensures candidate.Some? ==> Oldest(rows, now, candidate.value)
      ensures candidate.None? ==> forall e :: e in rows ==> !Claimable(rows[e], now)
    {
      candidate := None;
      var rest := rows.Keys;
      while rest != {}
        invariant rest <= rows.Keys
        invariant candidate.Some? ==> candidate.value in rows && Claimable(rows[candidate.value], now)
        invariant forall f :: f in rows && f !in rest && Claimable(rows[f], now) ==>
          && candidate.Some?
          && (rows[candidate.value].createdAt < rows[f].createdAt
              || (rows[candidate.value].createdAt == rows[f].createdAt && candidate.value <= f))
        decreases rest
      {
        var e :| e in rest;
        rest := rest - {e};
        if Claimable(rows[e], now) {
          if candidate.None? || rows[e].createdAt < rows[candidate.value].createdAt
              || (rows[e].createdAt == rows[candidate.value].createdAt && e < candidate.value) {
            candidate := Some(e);
          }
        }
      }
    }

    method ClaimNextEvent(worker: string, leaseMs: int, elapsed: nat) returns (claim: Option<nat>)
      modifies this
      ensures clock == old(clock) + elapsed
      ensures match claim
        case None => rows == old(rows) && forall e :: e in rows ==> !Claimable(rows[e], clock)
        case Some(e) =>
          Oldest(old(rows), clock, e) && rows == old(rows)[e := Outbox.Claimed(old(rows)[e], worker, leaseMs, clock)]
    {
      clock := clock + elapsed;
      claim := SelectCandidate(clock);
      if claim.Some? {
        var e := claim.value;
        rows := rows[e := rows[e].(status := Processing, lockedBy := Some(worker), lockedUntil := Some(clock + leaseMs),
                                   attempts := rows[e].attempts + 1)];
      }
    }

    /** UPDATE ... WHERE id AND locked_by: no row matches once another worker has reclaimed the event. */
    method MarkPublished(e: nat, worker: string)
      modifies this`rows
      ensures e in old(rows) ==> rows == old(rows)[e := MarkedPublished(old(rows)[e], worker)]
      ensures e !in old(rows) ==> rows == old(rows)
    {
      if e in rows && rows[e].lockedBy == Some(worker) {
        rows := rows[e := rows[e].(status := Published, lockedBy := None, lockedUntil := None)];
      }
    }

    method MarkPublishFailed(e: nat, worker: string)
      modifies this`rows
      ensures e in old(rows) ==> rows == old(rows)[e := MarkedFailed(old(rows)[e], worker)]
      ensures e !in old(rows) ==> rows == old(rows)
    {
      if e in rows && rows[e].lockedBy == Some(worker) {
        rows := rows[e := rows[e].(status := if rows[e].attempts >= rows[e].maxAttempts then Failed else Pending,
                                   lockedBy := None, lockedUntil := None)];
      }
    }
  }

  /** The publisher's world as a state of the protocol, seen by one idle loop. */
  function AsState(store: OutboxStore, broker: SimulatedBroker, worker: string): State
    reads store, broker
  {
    State(store.clock, store.rows, [Loop(worker, Idle)], broker.callCounts, broker.deliveries, {}, [], {})
  }

  /** Claim, broker call, finalise: undisturbed, the loop body is exactly these steps of the protocol. With
      `skipFinalize` it stops after the call, which the protocol calls a crash. */
  method ClaimAndPublish(store: OutboxStore, broker: SimulatedBroker, worker: string, leaseMs: int, elapsed: nat,
                         skipFinalize: bool)
    returns (result: PublishResult)
    modifies store, broker
    ensures match result
      case NothingClaimed =>
        && AsState(store, broker, worker) == old(AsState(store, broker, worker)).(clock := store.clock)
        && forall e :: e in store.rows ==> !Claimable(store.rows[e], store.clock)
      case Claimed(e, published) =>
        && published == (broker.mode != Reject)
        && Oldest(old(store.rows), old(store.clock) + elapsed, e)
        && var called :=
             Apply(Apply(Apply(old(AsState(store, broker, worker)), ClaimEvent(elapsed, 0, e, leaseMs)), CallBroker(0)),
                   BrokerReply(0, published));
          AsState(store, broker, worker) == Apply(called, if skipFinalize && published then Crash(0) else Finalise(0))
  {
    ghost var st := AsState(store, broker, worker);
    var claim := store.ClaimNextEvent(worker, leaseMs, elapsed);
    if claim.None? {
      return NothingClaimed;
    }
    var e := claim.value;
    ghost var claimed := Apply(st, ClaimEvent(elapsed, 0, e, leaseMs));
    assert claimed == AsState(store, broker, worker).(loops := [Loop(worker, HasClaim(e, st.rows[e].attempts + 1))]);
    var ok := broker.Publish(e);
    ghost var called := Apply(Apply(claimed, CallBroker(0)), BrokerReply(0, ok));
    ghost var phase := if ok then Delivered(e, st.rows[e].attempts + 1) else Rejected(e, st.rows[e].attempts + 1);
    assert called == AsState(store, broker, worker).(loops := [Loop(worker, phase)]);
    if ok {
      if !skipFinalize {
        store.MarkPublished(e, worker);
      }
    } else {
      store.MarkPublishFailed(e, worker);
    }
    result := PublishResult.Claimed(e, ok);
  }

  class Consumer {
    var processed: set<nat>
    var effects: seq<nat>

    /** INSERT ... ON CONFLICT DO NOTHING, then the side effect if the row was new. */
    method ConsumeIdempotently(event: nat) returns (duplicate: bool)
      modifies this
      ensures duplicate <==> event in old(processed)
      ensures processed == old(processed) + {event}
      ensures effects == if duplicate then old(effects) else old(effects) + [event]
    {
      duplicate := event in processed;
      processed := processed + {event};
      if !duplicate {
        effects := effects + [event];
      }
    }

    /** Deliveries consumed one after another: every delivered event takes effect once, in order of first delivery. */
    method ConsumeAll(deliveries: seq<nat>)
      requires processed == {} && effects == []
      modifies this
      ensures processed == set d | 0 <= d < |deliveries| :: deliveries[d]
      ensures forall e :: Occurrences(effects, e) == if e in deliveries then 1 else 0
    {
      var i := 0;
      while i < |deliveries|
        invariant 0 <= i <= |deliveries|
        invariant processed == set d | 0 <= d < i :: deliveries[d]
        invariant forall e :: Occurrences(effects, e) == if e in processed then 1 else 0
      {
        OccurrencesAppend(effects, deliveries[i]);
        var duplicate := ConsumeIdempotently(deliveries[i]);
        i := i + 1;
      }
    }
  }
}
