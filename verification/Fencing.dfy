/** A Redis lock with a lease, the fencing token drawn after it, and the row whose writes the tokens guard. */
module Fencing {
  import opened Wrappers

  /** The lock key: which acquisition's owner token it holds, and when it expires. Owner tokens are fresh, so an
      acquisition's number stands for its owner token. */
  datatype Lease = Lease(hold: nat, expiresAt: int)

  datatype ResourceRow = ResourceRow(fencingToken: int, lastWriter: Option<nat>)

  /** A worker between its commands. `Refused` did not get the lock, and still goes on to its write. */
  datatype Phase =
    | Idle
    | Refused
    | Acquired(hold: nat, expiresAt: int)
    | HasToken(hold: nat, expiresAt: int, token: nat)
    | Wrote(hold: nat, expiresAt: int)
  {
    predicate Holds() {
      Acquired? || HasToken? || Wrote?
    }
  }

  datatype Accepted = Accepted(hold: nat, token: nat)

  /** `holds` counts the acquisitions so far, `tokens` records the fencing token of each, and `accepted` the
      accepted writes by acquisition. */
  datatype State = State(
    clock: int, key: Option<Lease>, counter: nat, row: ResourceRow, workers: seq<Phase>,
    holds: nat, tokens: map<nat, nat>, accepted: seq<Accepted>)

  datatype Action =
    | Acquire(worker: nat, ttlMs: nat)
    | Incr(worker: nat)
    | Write(worker: nat)
    | Release(worker: nat)
    | Crash(worker: nat)
    | Tick(elapsed: nat)

  predicate KeyFree(key: Option<Lease>, clock: int) {
    key == None || key.value.expiresAt <= clock
  }

  predicate Enabled(st: State, a: Action) {
    match a
    // Redis refuses an expiry that is not positive
    case Acquire(w, ttl) => w < |st.workers| && st.workers[w] == Idle && ttl > 0
    case Incr(w) => w < |st.workers| && st.workers[w].Acquired?
    case Write(w) => w < |st.workers| && (st.workers[w].HasToken? || st.workers[w].Refused?)
    case Release(w) => w < |st.workers| && (st.workers[w].HasToken? || st.workers[w].Wrote?)
    case Crash(w) => w < |st.workers|
    case Tick(_) => true
  }

  function SetPhase(st: State, w: nat, p: Phase): State
    requires w < |st.workers|
  {
    st.(workers := st.workers[w := p])
  }

  /** UPDATE ... WHERE fencing_token < $1. */
  predicate Accepts(row: ResourceRow, token: int) {
    row.fencingToken < token
  }

  function Apply(st: State, a: Action): State {
    if !Enabled(st, a) then st
    else match a
      case Acquire(w, ttl) =>
        if KeyFree(st.key, st.clock)
        then SetPhase(st, w, Acquired(st.holds + 1, st.clock + ttl))
          .(key := Some(Lease(st.holds + 1, st.clock + ttl)), holds := st.holds + 1)
        else SetPhase(st, w, Refused)
      case Incr(w) =>
        var p := st.workers[w];
        SetPhase(st, w, HasToken(p.hold, p.expiresAt, st.counter + 1))
          .(counter := st.counter + 1, tokens := st.tokens[p.hold := st.counter + 1])
      case Write(w) =>
        var p := st.workers[w];
        if p.Refused? then
          // the write of a refused worker carries the token -1
          SetPhase(st, w, Idle).(row := if Accepts(st.row, -1) then ResourceRow(-1, Some(w)) else st.row)
        else if Accepts(st.row, p.token) then
          SetPhase(st, w, Wrote(p.hold, p.expiresAt))
            .(row := ResourceRow(p.token, Some(w)), accepted := st.accepted + [Accepted(p.hold, p.token)])
        else SetPhase(st, w, Wrote(p.hold, p.expiresAt))
      case Release(w) =>
        // compare and delete in one script
        var p := st.workers[w];
        SetPhase(st, w, Idle)
          .(key := if !KeyFree(st.key, st.clock) && st.key.value.hold == p.hold then None else st.key)
      case Crash(w) => SetPhase(st, w, Idle)
      case Tick(elapsed) => st.(clock := st.clock + elapsed)
  }

  function Run(st: State, actions: seq<Action>): State {
    if actions == [] then st else Apply(Run(st, actions[..|actions| - 1]), actions[|actions| - 1])
  }

  ghost predicate Fresh(st: State) {
    && st.key == None && st.holds == 0 && st.tokens == map[] && st.accepted == [] && 0 <= st.row.fencingToken
    && forall w :: 0 <= w < |st.workers| ==> st.workers[w] == Idle
  }

  // ---- At most one holder ----

  /** Worker `w` has the lock and its lease has not lapsed. */
  predicate Holder(st: State, w: nat) {
    w < |st.workers| && st.workers[w].Holds() && st.clock < st.workers[w].expiresAt
  }

  /** A live lease is the key's, and the key's is the latest acquisition. */
  ghost predicate LockInv(st: State) {
    && (forall w: nat :: Holder(st, w) ==> st.key == Some(Lease(st.workers[w].hold, st.workers[w].expiresAt)))
    && (st.key.Some? ==> st.key.value.hold == st.holds)
    && (forall w :: 0 <= w < |st.workers| && st.workers[w].Holds() ==> st.workers[w].hold <= st.holds)
    && (forall v, w :: 0 <= v < w < |st.workers| && st.workers[v].Holds() && st.workers[w].Holds() ==>
          st.workers[v].hold != st.workers[w].hold)
  }

  lemma HolderKeepsKey(st: State, a: Action, w: nat)
    requires LockInv(st) && Holder(Apply(st, a), w)
    ensures Apply(st, a).key == Some(Lease(Apply(st, a).workers[w].hold, Apply(st, a).workers[w].expiresAt))
  {
    assert (a.Acquire? && a.worker == w) || Holder(st, w);
  }

  lemma StepKeepsLock(st: State, a: Action)
    requires LockInv(st)
    ensures LockInv(Apply(st, a))
  {
    forall w: nat | Holder(Apply(st, a), w)
      ensures Apply(st, a).key == Some(Lease(Apply(st, a).workers[w].hold, Apply(st, a).workers[w].expiresAt))
    {
      HolderKeepsKey(st, a, w);
    }
    hide Holder;
  }

  lemma {:induction false} RunKeepsLock(st: State, actions: seq<Action>)
    requires LockInv(st)
    ensures LockInv(Run(st, actions))
  {
    if actions != [] {
      RunKeepsLock(st, actions[..|actions| - 1]);
      StepKeepsLock(Run(st, actions[..|actions| - 1]), actions[|actions| - 1]);
    }
  }

  /** In every reachable state at most one worker holds the lock, and it loses it only by its own release or
      crash, or by its lease lapsing. */
  lemma OneHolder(st: State, actions: seq<Action>, a: Action, v: nat, w: nat)
    requires Fresh(st)
    requires Holder(Run(st, actions), w)
    ensures Holder(Run(st, actions), v) ==> v == w
    ensures var mid, next := Run(st, actions), Apply(Run(st, actions), a);
      a != Release(w) && a != Crash(w) && next.clock < mid.workers[w].expiresAt ==>
        Holder(next, w) && next.key == mid.key
  {
    RunKeepsLock(st, actions);
    var mid := Run(st, actions);
    StepKeepsLock(mid, a);
    hide Run;
  }

  /** Why the release compares before it deletes: a DEL that trusts an earlier GET lets a second worker in beside
      the holder. */
  lemma UncheckedDeleteAdmitsTwo(st: State, v: nat, w: nat, ttlMs: nat)
    requires Holder(st, v) && w < |st.workers| && st.workers[w] == Idle && ttlMs > 0
    ensures Holder(Apply(st.(key := None), Acquire(w, ttlMs)), v)
      && Holder(Apply(st.(key := None), Acquire(w, ttlMs)), w)
  {}

  // ---- Accepted tokens only grow ----

  ghost predicate Increasing(accepted: seq<Accepted>, row: ResourceRow) {
    && (forall i, j :: 0 <= i < j < |accepted| ==> accepted[i].token < accepted[j].token)
    && (accepted != [] ==> accepted[|accepted| - 1].token == row.fencingToken)
  }

  /** Under any lapse, pause or crash: accepted writes carry strictly increasing tokens, and the row's token is
      the largest accepted one, or the initial one if nothing was accepted. */
  lemma {:induction false} TokensIncrease(st: State, actions: seq<Action>)
    requires st.accepted == [] && 0 <= st.row.fencingToken
    ensures Increasing(Run(st, actions).accepted, Run(st, actions).row)
    ensures Run(st, actions).accepted == [] ==> Run(st, actions).row == st.row
    ensures st.row.fencingToken <= Run(st, actions).row.fencingToken
  {
    if actions != [] {
      TokensIncrease(st, actions[..|actions| - 1]);
    }
  }

  // ---- When token order is acquisition order ----

  ghost predicate InAcquisitionOrder(st: State) {
    forall g, h :: g in st.tokens && h in st.tokens && g < h ==> st.tokens[g] < st.tokens[h]
  }

  ghost predicate TokenInv(st: State) {
    && LockInv(st)
    && (forall h :: h in st.tokens ==> h <= st.holds && st.tokens[h] <= st.counter)
    && (forall w :: 0 <= w < |st.workers| && st.workers[w].Acquired? ==> st.workers[w].hold !in st.tokens)
    && (forall w :: 0 <= w < |st.workers| && st.workers[w].HasToken? ==>
          st.workers[w].hold in st.tokens && st.tokens[st.workers[w].hold] == st.workers[w].token)
    && (forall i :: 0 <= i < |st.accepted| ==>
          st.accepted[i].hold in st.tokens && st.tokens[st.accepted[i].hold] == st.accepted[i].token)
  }

  lemma StepKeepsTokens(st: State, a: Action)
    requires TokenInv(st)
    ensures TokenInv(Apply(st, a))
  {
    StepKeepsLock(st, a);
  }

  lemma {:induction false} RunKeepsTokens(st: State, actions: seq<Action>)
    requires TokenInv(st)
    ensures TokenInv(Run(st, actions))
  {
    if actions != [] {
      RunKeepsTokens(st, actions[..|actions| - 1]);
      StepKeepsTokens(Run(st, actions[..|actions| - 1]), actions[|actions| - 1]);
    }
  }

  /** A later acquisition already has its token. */
  ghost predicate Overtaken(st: State, w: nat)
    requires w < |st.workers| && st.workers[w].Acquired?
  {
    exists h :: h in st.tokens && st.workers[w].hold < h
  }

  /** The INCR of `w` keeps token order equal to acquisition order exactly when no later holder has drawn its
      token, which is sure while the lease of `w` lasts. */
  lemma IncrKeepsOrderIff(st: State, w: nat)
    requires TokenInv(st) && w < |st.workers| && st.workers[w].Acquired?
    ensures InAcquisitionOrder(Apply(st, Incr(w))) <==> InAcquisitionOrder(st) && !Overtaken(st, w)
    ensures st.clock < st.workers[w].expiresAt ==> !Overtaken(st, w)
  {
    var next := Apply(st, Incr(w));
    assert forall h :: h in st.tokens ==> h in next.tokens && next.tokens[h] == st.tokens[h];
    if h :| h in st.tokens && st.workers[w].hold < h {
      assert next.tokens[st.workers[w].hold] == st.counter + 1;
    }
    assert st.clock < st.workers[w].expiresAt ==> Holder(st, w);
  }

  /** No INCR of the run came after a later holder's. */
  ghost predicate NoneOvertaken(st: State, actions: seq<Action>) {
    actions != [] ==>
      var prefix, a := actions[..|actions| - 1], actions[|actions| - 1];
      && NoneOvertaken(st, prefix)
      && (a.Incr? && Enabled(Run(st, prefix), a) ==> !Overtaken(Run(st, prefix), a.worker))
  }

  /** Tokens follow acquisition order, for every run, if and only if no INCR was overtaken. */
  lemma {:induction false} InOrderIffNoneOvertaken(st: State, actions: seq<Action>)
    requires Fresh(st)
    ensures TokenInv(Run(st, actions))
    ensures InAcquisitionOrder(Run(st, actions)) <==> NoneOvertaken(st, actions)
  {
    if actions != [] {
      var prefix, a := actions[..|actions| - 1], actions[|actions| - 1];
      InOrderIffNoneOvertaken(st, prefix);
      StepKeepsTokens(Run(st, prefix), a);
      if a.Incr? && Enabled(Run(st, prefix), a) {
        IncrKeepsOrderIff(Run(st, prefix), a.worker);
      } else {
        assert Run(st, actions).tokens == Run(st, prefix).tokens;
      }
    }
  }

  /** Every INCR of the run came before its lease lapsed. */
  ghost predicate Prompt(st: State, actions: seq<Action>) {
    actions != [] ==>
      var prefix, a := actions[..|actions| - 1], actions[|actions| - 1];
      && Prompt(st, prefix)
      && (a.Incr? && Enabled(Run(st, prefix), a) ==>
            Run(st, prefix).clock < Run(st, prefix).workers[a.worker].expiresAt)
  }

  lemma {:induction false} PromptIsNotOvertaken(st: State, actions: seq<Action>)
    requires Fresh(st) && Prompt(st, actions)
    ensures NoneOvertaken(st, actions)
  {
    if actions != [] {
      var prefix, a := actions[..|actions| - 1], actions[|actions| - 1];
      PromptIsNotOvertaken(st, prefix);
      InOrderIffNoneOvertaken(st, prefix);
      if a.Incr? && Enabled(Run(st, prefix), a) {
        IncrKeepsOrderIff(Run(st, prefix), a.worker);
      }
    }
  }

  /** If every INCR runs before its lease lapses, no write of an earlier holder is accepted after a write of a
      later holder, however long workers pause after it. */
  lemma PromptWritesInOrder(st: State, actions: seq<Action>, i: nat, j: nat)
    requires Fresh(st) && Prompt(st, actions) && i < j < |Run(st, actions).accepted|
    ensures Run(st, actions).accepted[i].hold < Run(st, actions).accepted[j].hold
  {
    PromptIsNotOvertaken(st, actions);
    InOrderIffNoneOvertaken(st, actions);
    TokensIncrease(st, actions);
    var end := Run(st, actions);
    assert end.accepted[i].token < end.accepted[j].token;
    assert end.accepted[i].hold != end.accepted[j].hold;
    hide Run;
  }

  /** Why the INCR must be prompt: whenever a worker has lost its lease before its INCR, another worker can
      acquire, draw its token and write, and then the first one's write is accepted as well, on top. */
  lemma LateIncrReordersWrites(st: State, w: nat, v: nat, ttlMs: nat)
    requires TokenInv(st) && st.row.fencingToken <= st.counter
    requires w < |st.workers| && st.workers[w].Acquired? && KeyFree(st.key, st.clock)
    requires v < |st.workers| && v != w && st.workers[v] == Idle && ttlMs > 0
    ensures var late := Run(st, [Acquire(v, ttlMs), Incr(v), Write(v), Incr(w), Write(w)]);
      && |late.accepted| == |st.accepted| + 2
      && late.accepted[|st.accepted| + 1].hold == st.workers[w].hold < late.accepted[|st.accepted|].hold == st.holds + 1
      && late.row.lastWriter == Some(w)
  {
    RunFive(st, Acquire(v, ttlMs), Incr(v), Write(v), Incr(w), Write(w));
    Overtake(st, w, v, ttlMs);
    var s3 := Apply(Apply(Apply(st, Acquire(v, ttlMs)), Incr(v)), Write(v));
    LateWrite(s3, w);
    hide Run, Apply;
  }

  /** Such a run from the start: the first holder pauses for its whole lease before the INCR, and its write, under
      the smaller acquisition number, lands on top of the second holder's. */
  lemma LateIncrFromStart(st: State, w: nat, v: nat, ttlMs: nat)
    requires Fresh(st) && st.row.fencingToken <= st.counter && ttlMs > 0
    requires w < |st.workers| && v < |st.workers| && v != w
    ensures var lapsed := Apply(Apply(st, Acquire(w, ttlMs)), Tick(ttlMs));
      var end := Run(lapsed, [Acquire(v, ttlMs), Incr(v), Write(v), Incr(w), Write(w)]);
      && |end.accepted| == 2 && end.accepted[0].hold == 2 && end.accepted[1].hold == 1
      && end.row.lastWriter == Some(w)
  {
    var lapsed := Apply(Apply(st, Acquire(w, ttlMs)), Tick(ttlMs));
    assert lapsed.workers[w] == Acquired(1, st.clock + ttlMs);
    StepKeepsTokens(st, Acquire(w, ttlMs));
    StepKeepsTokens(Apply(st, Acquire(w, ttlMs)), Tick(ttlMs));
    LateIncrReordersWrites(lapsed, w, v, ttlMs);
    hide Run;
  }

  /** Another worker acquires, draws its token and writes. */
  lemma Overtake(st: State, w: nat, v: nat, ttlMs: nat)
    requires st.row.fencingToken <= st.counter && w < |st.workers| && KeyFree(st.key, st.clock)
    requires v < |st.workers| && v != w && st.workers[v] == Idle && ttlMs > 0
    ensures var s3 := Apply(Apply(Apply(st, Acquire(v, ttlMs)), Incr(v)), Write(v));
      && |s3.workers| == |st.workers| && s3.workers[w] == st.workers[w] && s3.row.fencingToken == s3.counter
      && s3.accepted == st.accepted + [Accepted(st.holds + 1, st.counter + 1)]
  {
    var s1 := Apply(st, Acquire(v, ttlMs));
    var s2 := Apply(s1, Incr(v));
    assert s2.workers[v] == HasToken(st.holds + 1, st.clock + ttlMs, st.counter + 1);
    assert s2.workers[w] == st.workers[w] && s2.row == st.row && s2.accepted == st.accepted;
    hide KeyFree;
  }

  lemma LateWrite(st: State, w: nat)
    requires w < |st.workers| && st.workers[w].Acquired? && st.row.fencingToken == st.counter
    ensures var late := Apply(Apply(st, Incr(w)), Write(w));
      && late.row.lastWriter == Some(w)
      && late.accepted == st.accepted + [Accepted(st.workers[w].hold, st.counter + 1)]
  {}

  lemma RunFive(st: State, a: Action, b: Action, c: Action, d: Action, e: Action)
    ensures Run(st, [a, b, c, d, e]) == Apply(Apply(Apply(Apply(Apply(st, a), b), c), d), e)
  {
    hide Apply;
    assert [a, b, c, d, e][..4] == [a, b, c, d] && [a, b, c, d][..3] == [a, b, c] && [a, b, c][..2] == [a, b];
    assert [a, b][..1] == [a] && [a][..0] == [];
    assert Run(st, [a]) == Apply(Run(st, []), a);
    assert Run(st, [a, b]) == Apply(Run(st, [a]), b);
    assert Run(st, [a, b, c]) == Apply(Run(st, [a, b]), c);
    assert Run(st, [a, b, c, d]) == Apply(Run(st, [a, b, c]), d);
  }
}
