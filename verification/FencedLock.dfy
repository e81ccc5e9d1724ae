/** The Redis commands, the fenced write and the worker flow as methods, each run undisturbed. */
module FencedLock {
  import opened Wrappers
  import opened Fencing

  datatype Entry = Entry(value: nat, expiresAt: int)

  datatype RedisError = InvalidExpireTime

  class Redis {
    var clock: int
    var keys: map<string, Entry>
    var counters: map<string, nat>

    predicate Live(key: string)
      reads this
    {
      key in keys && clock < keys[key].expiresAt
    }

    function CounterOf(key: string): nat
      reads this
    {
      if key in counters then counters[key] else 0
    }

    /** SET key ownerToken PX ttlMs NX. */
    method AcquireLock(key: string, ownerToken: nat, ttlMs: int) returns (acquired: Result<bool, RedisError>)
      modifies this`keys
      ensures acquired.Err? <==> ttlMs <= 0
      ensures ttlMs > 0 ==> acquired == Ok(!old(Live(key)))
      ensures keys == if acquired == Ok(true) then old(keys)[key := Entry(ownerToken, clock + ttlMs)] else old(keys)
      ensures acquired.Ok? ==> Live(key)
    {
      if ttlMs <= 0 {
        return Err(InvalidExpireTime);
      }
      if key in keys && keys[key].expiresAt <= clock {
        keys := keys[key := Entry(ownerToken, clock + ttlMs)];
        return Ok(true);
      }
      if key !in keys {
        keys := keys[key := Entry(ownerToken, clock + ttlMs)];
        return Ok(true);
      }
      return Ok(false);
    }

    /** GET, compare and DEL in one script: only the owner of a live key deletes it. */
    method ReleaseLock(key: string, ownerToken: nat) returns (released: bool)
      modifies this`keys
      ensures released <==> old(Live(key)) && old(keys)[key].value == ownerToken
      ensures keys == if released then old(keys) - {key} else old(keys)
    {
      var current := if key in keys && clock < keys[key].expiresAt then Some(keys[key].value) else None;
      if current == Some(ownerToken) {
        keys := keys - {key};
        return true;
      }
      return false;
    }

    method IncrementCounter(key: string) returns (value: nat)
      modifies this`counters
      ensures value == old(CounterOf(key)) + 1 && counters == old(counters)[key := value]
    {
      value := (if key in counters then counters[key] else 0) + 1;
      counters := counters[key := value];
    }

    /** No acquisition, no token; an acquisition's token is above every earlier value of its counter. */
    method AcquireLockWithFencingToken(lockKey: string, counterKey: string, ownerToken: nat, ttlMs: int)
      returns (result: Result<Option<nat>, RedisError>)
      modifies this`keys, this`counters
      ensures result.Err? <==> ttlMs <= 0
      ensures result.Ok? ==> (result.value.Some? <==> !old(Live(lockKey)))
      ensures result.Ok? && result.value.Some? ==>
        && result.value.value > old(CounterOf(counterKey)) && CounterOf(counterKey) == result.value.value
        && keys == old(keys)[lockKey := Entry(ownerToken, clock + ttlMs)]
      ensures !(result.Ok? && result.value.Some?) ==> keys == old(keys) && counters == old(counters)
      ensures forall other :: other != counterKey ==> CounterOf(other) == old(CounterOf(other))
    {
      var acquired := AcquireLock(lockKey, ownerToken, ttlMs);
      if acquired.Err? {
        return Err(acquired.error);
      }
      if !acquired.value {
        return Ok(None);
      }
      var token := IncrementCounter(counterKey);
      return Ok(Some(token));
    }
  }

  class ResourceTable {
    var rows: map<string, ResourceRow>

    method WriteResourceStateFenced(name: string, writer: nat, token: int) returns (rowCount: nat)
      modifies this
      ensures rowCount == if name in old(rows) && Accepts(old(rows)[name], token) then 1 else 0
      ensures rows == if rowCount == 1 then old(rows)[name := ResourceRow(token, Some(writer))] else old(rows)
    {
      rowCount := 0;
      if name in rows && rows[name].fencingToken < token {
        rows := rows[name := ResourceRow(token, Some(writer))];
        rowCount := 1;
      }
    }
  }

  datatype FencedRun = FencedRun(fencingToken: Option<nat>, writeAccepted: bool)

  /** Lock, token, work for as long as it takes, fenced write: -1 stands for the token of a worker without the
      lock. The write is accepted exactly when the row exists and its token is below the write's, and then the
      row carries the write's. A refused expiry ends the flow before any of it. */
  method WorkerFlow(redis: Redis, table: ResourceTable, name: string, worker: nat, ownerToken: nat,
                    lockKey: string, counterKey: string, ttlMs: int, workMs: nat)
    returns (run: Result<FencedRun, RedisError>)
    modifies redis, table
    ensures run.Err? <==> ttlMs <= 0
    ensures run.Err? ==>
      redis.keys == old(redis.keys) && redis.counters == old(redis.counters) && table.rows == old(table.rows)
    ensures run.Ok? ==>
      var FencedRun(token, accepted) := run.value;
      var sent := if token.Some? then token.value else -1;
      && (token.Some? <==> !old(redis.Live(lockKey)))
      && (token.Some? ==> token.value == redis.CounterOf(counterKey) > old(redis.CounterOf(counterKey)))
      && (accepted <==> name in old(table.rows) && old(table.rows)[name].fencingToken < sent)
      && table.rows == (if accepted then old(table.rows)[name := ResourceRow(sent, Some(worker))] else old(table.rows))
    ensures run.Ok? && run.value.writeAccepted && 0 <= old(table.rows)[name].fencingToken ==>
      run.value.fencingToken.Some?
  {
    var result := redis.AcquireLockWithFencingToken(lockKey, counterKey, ownerToken, ttlMs);
    if result.Err? {
      return Err(result.error);
    }
    var fencingToken := result.value;
    redis.clock := redis.clock + workMs;
    var rowCount := table.WriteResourceStateFenced(name, worker, if fencingToken.Some? then fencingToken.value else -1);
    return Ok(FencedRun(fencingToken, rowCount > 0));
  }
}
