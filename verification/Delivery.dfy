/** A sender that retries over a scripted lossy network, in front of a naive or an idempotent receiver. */
module Delivery {
  import opened Wrappers

  datatype NetworkOutcome = MessageLost | AckLost | Arrived

  datatype DeliveryOutcome = SentLost | DeliveredAckLost | DeliveredAcked

  datatype DeliveryAttempt = DeliveryAttempt(number: nat, outcome: DeliveryOutcome)

  datatype ScriptError = EmptyScript

  /** Attempts beyond the script repeat its last outcome; an empty script is an error. */
  function OutcomeForAttempt(script: seq<NetworkOutcome>, attempt: nat): (r: Result<NetworkOutcome, ScriptError>)
    requires attempt >= 1
  {
    if script == [] then Err(EmptyScript)
    else Ok(script[if attempt - 1 < |script| - 1 then attempt - 1 else |script| - 1])
  }

  function ToDeliveryOutcome(outcome: NetworkOutcome): DeliveryOutcome {
    match outcome
    case MessageLost => SentLost
    case AckLost => DeliveredAckLost
    case Arrived => DeliveredAcked
  }

  /** The business effect of one message, and the inbox of claimed message ids. */
  class Receiver {
    const idempotent: bool
    var processedCount: map<nat, nat>
    var claimed: set<nat>

    constructor (idempotent: bool)
      ensures this.idempotent == idempotent && processedCount == map[] && claimed == {}
    {
      this.idempotent, this.processedCount, this.claimed := idempotent, map[], {};
    }

    function CountOf(message: nat): nat
      reads this
    {
      if message in processedCount then processedCount[message] else 0
    }

    /** Applies the effect every time it is invoked. */
    method NaiveProcess(message: nat)
      modifies this`processedCount
      ensures processedCount == old(processedCount)[message := old(CountOf(message)) + 1]
    {
      processedCount := processedCount[message := CountOf(message) + 1];
    }

    /** Claims the id and applies the effect in one transaction; a claimed id is left alone. */
    method IdempotentProcess(message: nat) returns (applied: bool)
      modifies this
      ensures applied <==> message !in old(claimed)
      ensures claimed == old(claimed) + {message}
      ensures processedCount ==
        if applied then old(processedCount)[message := old(CountOf(message)) + 1] else old(processedCount)
    {
      applied := message !in claimed;
      claimed := claimed + {message};
      if applied {
        processedCount := processedCount[message := CountOf(message) + 1];
      }
    }

    method Deliver(message: nat)
      modifies this
      ensures CountOf(message) == old(CountOf(message)) + if idempotent && message in old(claimed) then 0 else 1
      ensures claimed == old(claimed) + if idempotent then {message} else {}
      ensures forall m :: m != message ==> CountOf(m) == old(CountOf(m))
    {
      if idempotent {
        var applied := IdempotentProcess(message);
      } else {
        NaiveProcess(message);
      }
    }
  }

  /** Whether attempt `n` of the script is acknowledged, and whether it reaches the receiver. */
  predicate AckedAt(script: seq<NetworkOutcome>, n: nat) {
    n >= 1 && OutcomeForAttempt(script, n) == Ok(Arrived)
  }

  predicate ReachedAt(script: seq<NetworkOutcome>, n: nat) {
    n >= 1 && OutcomeForAttempt(script, n).Ok? && OutcomeForAttempt(script, n) != Ok(MessageLost)
  }

  /** The first of the attempts n, n+1, ..., limit that is acknowledged, or else the limit. */
  function LastAttempt(script: seq<NetworkOutcome>, n: nat, limit: nat): (k: nat)
    requires n <= limit
    ensures n <= k <= limit
    ensures forall i :: n <= i < k ==> !AckedAt(script, i)
    ensures k == limit || AckedAt(script, k)
    decreases limit - n
  {
    if n == limit || AckedAt(script, n) then n else LastAttempt(script, n + 1, limit)
  }

  function Reached(script: seq<NetworkOutcome>, n: nat): nat {
    if n == 0 then 0 else Reached(script, n - 1) + if ReachedAt(script, n) then 1 else 0
  }

  function AttemptLog(script: seq<NetworkOutcome>, n: nat): (log: seq<DeliveryAttempt>)
    requires script != []
    ensures |log| == n
    ensures forall i :: 0 <= i < n ==>
      log[i] == DeliveryAttempt(i + 1,
        match script[if i < |script| then i else |script| - 1]
        case MessageLost => SentLost
        case AckLost => DeliveredAckLost
        case Arrived => DeliveredAcked)
  {
    if n == 0 then []
    else AttemptLog(script, n - 1) + [DeliveryAttempt(n, ToDeliveryOutcome(OutcomeForAttempt(script, n).value))]
  }

  /** How many of the attempts reached the receiver. */
  function Arrivals(attempts: seq<DeliveryAttempt>): nat {
    if attempts == [] then 0
    else Arrivals(attempts[..|attempts| - 1]) + if attempts[|attempts| - 1].outcome == SentLost then 0 else 1
  }

  lemma {:induction false} ReachedArrived(script: seq<NetworkOutcome>, n: nat)
    requires script != []
    ensures Reached(script, n) == Arrivals(AttemptLog(script, n))
  {
    if n > 0 {
      ReachedArrived(script, n - 1);
      assert AttemptLog(script, n)[..n - 1] == AttemptLog(script, n - 1);
    }
  }

  /** At-most-once: one attempt, no retry. */
  method SendOnce(outcome: NetworkOutcome, receiver: Receiver, message: nat) returns (attempt: DeliveryAttempt)
    modifies receiver
    ensures attempt == DeliveryAttempt(1,
      match outcome case MessageLost => SentLost case AckLost => DeliveredAckLost case Arrived => DeliveredAcked)
    ensures outcome == MessageLost ==>
      receiver.CountOf(message) == old(receiver.CountOf(message)) && receiver.claimed == old(receiver.claimed)
    ensures outcome != MessageLost ==>
      && receiver.CountOf(message) == old(receiver.CountOf(message))
        + (if receiver.idempotent && message in old(receiver.claimed) then 0 else 1)
      && receiver.claimed == old(receiver.claimed) + (if receiver.idempotent then {message} else {})
    ensures forall m :: m != message ==> receiver.CountOf(m) == old(receiver.CountOf(m))
  {
    if outcome == MessageLost {
      return DeliveryAttempt(1, SentLost);
    }
    receiver.Deliver(message);
    return DeliveryAttempt(1, ToDeliveryOutcome(outcome));
  }

  /** At-least-once: attempts 1 to k, where k is the first acknowledged one or the retry limit. The naive
      receiver counts every attempt that reached it; the idempotent one counts 1 if any did. */
  method SendWithRetry(script: seq<NetworkOutcome>, maxAttempts: nat, receiver: Receiver, message: nat)
    returns (r: Result<(seq<DeliveryAttempt>, bool), ScriptError>)
    modifies receiver
    ensures r.Err? <==> script == [] && maxAttempts >= 1
    ensures r.Err? ==>
      receiver.processedCount == old(receiver.processedCount) && receiver.claimed == old(receiver.claimed)
    ensures r.Ok? ==>
      var (attempts, acked) := r.value;
      var k := |attempts|;
      && k == (if maxAttempts == 0 then 0 else LastAttempt(script, 1, maxAttempts))
      && (k > 0 ==> attempts == AttemptLog(script, k))
      && k <= maxAttempts && (acked || k == maxAttempts)
      && (acked <==> k > 0 && attempts[k - 1].outcome == DeliveredAcked)
      && (forall i :: 0 <= i < k - 1 ==> attempts[i].outcome != DeliveredAcked)
      && receiver.CountOf(message) == old(receiver.CountOf(message)) +
        (if !receiver.idempotent then Arrivals(attempts)
         else if Arrivals(attempts) > 0 && message !in old(receiver.claimed) then 1 else 0)
      && receiver.claimed ==
        old(receiver.claimed) + (if receiver.idempotent && Arrivals(attempts) > 0 then {message} else {})
    ensures forall m :: m != message ==> receiver.CountOf(m) == old(receiver.CountOf(m))
  {
    var attempts: seq<DeliveryAttempt> := [];
    var n := 1;
    while n <= maxAttempts
      invariant 1 <= n <= maxAttempts + 1
      invariant n > 1 ==> script != []
      invariant script != [] ==> attempts == AttemptLog(script, n - 1)
      invariant n == 1 ==> attempts == [] && receiver.processedCount == old(receiver.processedCount)
      invariant forall i :: 1 <= i < n ==> !AckedAt(script, i)
      invariant forall m :: m != message ==> receiver.CountOf(m) == old(receiver.CountOf(m))
      invariant receiver.CountOf(message) == old(receiver.CountOf(message)) +
        (if !receiver.idempotent then Reached(script, n - 1)
         else if Reached(script, n - 1) > 0 && message !in old(receiver.claimed) then 1 else 0)
      invariant receiver.claimed ==
        old(receiver.claimed) + if receiver.idempotent && Reached(script, n - 1) > 0 then {message} else {}
    {
      var outcome := OutcomeForAttempt(script, n);
      if outcome.Err? {
        return Err(EmptyScript);
      }
      var attempt := DeliveryAttempt(n, SentLost);
      if outcome.value != MessageLost {
        receiver.Deliver(message);
        attempt := DeliveryAttempt(n, ToDeliveryOutcome(outcome.value));
      }
      attempts := attempts + [attempt];
      if attempt.outcome == DeliveredAcked {
        StopsAt(script, n, maxAttempts);
        ReachedArrived(script, n);
        LogAcked(script, n);
        return Ok((attempts, true));
      }
      n := n + 1;
    }
    if maxAttempts > 0 {
      NeverStops(script, maxAttempts);
      ReachedArrived(script, maxAttempts);
      LogAcked(script, maxAttempts);
    }
    return Ok((attempts, false));
  }

  lemma LogAcked(script: seq<NetworkOutcome>, n: nat)
    requires script != []
    ensures forall i :: 0 <= i < n ==> (AttemptLog(script, n)[i].outcome == DeliveredAcked <==> AckedAt(script, i + 1))
  {
  }

  lemma StopsAt(script: seq<NetworkOutcome>, n: nat, limit: nat)
    requires 1 <= n <= limit && AckedAt(script, n) && forall i :: 1 <= i < n ==> !AckedAt(script, i)
    ensures LastAttempt(script, 1, limit) == n
  {
  }

  lemma NeverStops(script: seq<NetworkOutcome>, limit: nat)
    requires 1 <= limit && forall i :: 1 <= i <= limit ==> !AckedAt(script, i)
    ensures LastAttempt(script, 1, limit) == limit
  {
  }

  /** Retrying past the end of the script never turns into an acknowledgment: a send is acknowledged exactly
      if an acknowledging outcome stands among the script's first `limit` entries. */
  lemma AckedIffScripted(script: seq<NetworkOutcome>, limit: nat)
    requires script != [] && limit >= 1
    ensures AckedAt(script, LastAttempt(script, 1, limit))
      <==> exists i :: 0 <= i < |script| && i < limit && script[i] == Arrived
  {
    var k := LastAttempt(script, 1, limit);
    if AckedAt(script, k) {
      assert script[if k - 1 < |script| - 1 then k - 1 else |script| - 1] == Arrived;
    }
    if i :| 0 <= i < |script| && i < limit && script[i] == Arrived {
      assert AckedAt(script, i + 1);
    }
  }
}
