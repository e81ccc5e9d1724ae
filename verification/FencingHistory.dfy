/** What the history of a run alone says about the lock's lease, the tokens drawn, and the guarded row. */
module FencingHistory {
  import opened Wrappers
  import opened Fencing

  /** The state before action `n` of the run, or at its end. */
  function At(st: State, actions: seq<Action>, n: nat): State
    requires n <= |actions|
  {
    Run(st, actions[..n])
  }

  lemma AtNext(st: State, actions: seq<Action>, n: nat)
    requires n < |actions|
    ensures At(st, actions, n + 1) == Apply(At(st, actions, n), actions[n])
  {
    assert actions[..n + 1][..n] == actions[..n];
  }

  // ---- The lease ----

  /** Action `k` gave worker `w` the lock. */
  predicate Acquires(st: State, actions: seq<Action>, k: nat, w: nat) {
    && k < |actions| && actions[k].Acquire? && actions[k].worker == w && Enabled(At(st, actions, k), actions[k])
    && w < |At(st, actions, k + 1).workers| && At(st, actions, k + 1).workers[w].Acquired?
  }

  predicate Releases(st: State, actions: seq<Action>, j: nat, w: nat) {
    j < |actions| && actions[j] == Release(w) && Enabled(At(st, actions, j), actions[j])
  }

  ghost predicate LastHolder(st: State, actions: seq<Action>, n: nat, k: nat, w: nat) {
    && k < n <= |actions| && Acquires(st, actions, k, w)
    && forall j: nat, v: nat :: k < j < n ==> !Acquires(st, actions, j, v)
  }

  ghost predicate Released(st: State, actions: seq<Action>, n: nat, k: nat, w: nat) {
    exists j: nat :: k < j < n && Releases(st, actions, j, w)
  }

  /** Only worker `w` carries the latest acquisition; the key is its lease until `until`, unless it was released. */
  ghost predicate KeyTold(e: State, w: nat, until: int, released: bool) {
    && (forall v: nat :: v < |e.workers| && e.workers[v].Holds() ==>
          (e.workers[v].hold == e.holds <==> v == w) && (v == w ==> e.workers[v].expiresAt == until))
    && (!released ==> e.key == Some(Lease(e.holds, until)))
    && (released ==> e.key == None || (e.key.value.expiresAt == until <= e.clock && e.key.value.hold == e.holds))
  }

  /** A step that acquires nothing. */
  lemma StepKeepsKeyTold(e: State, a: Action, w: nat, until: int, released: bool)
    requires LockInv(e) && KeyTold(e, w, until, released)
    requires a.Acquire? && Enabled(e, a) ==>
        a.worker < |Apply(e, a).workers| && !Apply(e, a).workers[a.worker].Acquired?
    ensures KeyTold(Apply(e, a), w, until, released || (a == Release(w) && Enabled(e, a)))
  {
  }

  lemma FirstKeyTold(st: State, actions: seq<Action>, k: nat, w: nat)
    requires Fresh(st) && Acquires(st, actions, k, w)
    ensures KeyTold(At(st, actions, k + 1), w, At(st, actions, k).clock + actions[k].ttlMs, false)
  {
    AtNext(st, actions, k);
    RunKeepsLock(st, actions[..k]);
  }

  lemma ReleasedLater(st: State, actions: seq<Action>, n: nat, k: nat, w: nat)
    requires k + 1 < n <= |actions|
    ensures Released(st, actions, n, k, w) <==> Released(st, actions, n - 1, k, w) || Releases(st, actions, n - 1, w)
  {
    hide Releases;
  }

  lemma NotAcquired(st: State, actions: seq<Action>, n: nat, k: nat, w: nat)
    requires k + 1 < n <= |actions| && LastHolder(st, actions, n, k, w)
    ensures LastHolder(st, actions, n - 1, k, w)
    ensures var e, a := At(st, actions, n - 1), actions[n - 1];
      a.Acquire? && Enabled(e, a) ==>
        a.worker < |Apply(e, a).workers| && !Apply(e, a).workers[a.worker].Acquired?
  {
    var e, a := At(st, actions, n - 1), actions[n - 1];
    AtNext(st, actions, n - 1);
    if a.Acquire? && Enabled(e, a) {
      AcquireKeepsWorkers(e, a);
      assert !Acquires(st, actions, n - 1, a.worker);
    }
    hide Apply, Run, At;
  }

  lemma AcquireKeepsWorkers(e: State, a: Action)
    requires Enabled(e, a) && a.Acquire?
    ensures a.worker < |Apply(e, a).workers|
  {
  }

  lemma {:induction false} RunKeyTold(st: State, actions: seq<Action>, n: nat, k: nat, w: nat)
    requires Fresh(st) && LastHolder(st, actions, n, k, w)
    ensures KeyTold(At(st, actions, n), w, At(st, actions, k).clock + actions[k].ttlMs, Released(st, actions, n, k, w))
  {
    FirstKeyTold(st, actions, k, w);
    if n > k + 1 {
      NotAcquired(st, actions, n, k, w);
      RunKeyTold(st, actions, n - 1, k, w);
      AtNext(st, actions, n - 1);
      RunKeepsLock(st, actions[..n - 1]);
      ReleasedLater(st, actions, n, k, w);
      hide Run, Released, Apply, KeyTold, LockInv, LastHolder, Enabled, Acquires;
      StepKeepsKeyTold(At(st, actions, n - 1), actions[n - 1], w, At(st, actions, k).clock + actions[k].ttlMs,
                       Released(st, actions, n - 1, k, w));
    }
  }

  /** In every run: a worker that asks for the lock after an acquisition at time t with ttlMs gets it exactly if the
      holder has released it or t + ttlMs has come. */
  lemma AcquiresIff(st: State, actions: seq<Action>, n: nat, k: nat, w: nat, v: nat, ttlMs: nat)
    requires Fresh(st) && LastHolder(st, actions, n, k, w) && Enabled(At(st, actions, n), Acquire(v, ttlMs))
    ensures var e, t := At(st, actions, n), At(st, actions, k).clock;
      Apply(e, Acquire(v, ttlMs)).workers[v].Acquired? <==>
        Released(st, actions, n, k, w) || e.clock >= t + actions[k].ttlMs
  {
    RunKeyTold(st, actions, n, k, w);
    hide At, Released, LastHolder;
  }

  /** In every run: the latest holder's lease lasts exactly until its acquisition time plus its ttlMs. */
  lemma HolderIff(st: State, actions: seq<Action>, n: nat, k: nat, w: nat)
    requires Fresh(st) && LastHolder(st, actions, n, k, w)
    ensures var e := At(st, actions, n);
      w < |e.workers| && e.workers[w].Holds() ==>
        (Holder(e, w) <==> e.clock < At(st, actions, k).clock + actions[k].ttlMs)
  {
    RunKeyTold(st, actions, n, k, w);
    hide At, Released, LastHolder;
  }

  // ---- Tokens and the row ----

  function Incrs(st: State, actions: seq<Action>): nat {
    if actions == [] then 0 else
      var prefix, a := actions[..|actions| - 1], actions[|actions| - 1];
      Incrs(st, prefix) + if a.Incr? && Enabled(Run(st, prefix), a) then 1 else 0
  }

  /** The token a worker's latest INCR drew. */
  function Drawn(st: State, actions: seq<Action>, w: nat): Option<nat> {
    if actions == [] then None else
      var prefix, a := actions[..|actions| - 1], actions[|actions| - 1];
      if a == Incr(w) && Enabled(Run(st, prefix), a) then Some(st.counter + Incrs(st, prefix) + 1)
      else Drawn(st, prefix, w)
  }

  /** The row: its latest accepted write, each accepted exactly if its token was above the row's. */
  function RowOf(st: State, actions: seq<Action>): ResourceRow {
    if actions == [] then st.row else
      var prefix, a := actions[..|actions| - 1], actions[|actions| - 1];
      var row := RowOf(st, prefix);
      if a.Write? && Enabled(Run(st, prefix), a) && Run(st, prefix).workers[a.worker].HasToken?
        && Drawn(st, prefix, a.worker).Some? && row.fencingToken < Drawn(st, prefix, a.worker).value
      then ResourceRow(Drawn(st, prefix, a.worker).value, Some(a.worker)) else row
  }

  ghost predicate TokensDrawn(st: State, actions: seq<Action>) {
    var e := Run(st, actions);
    && e.counter == st.counter + Incrs(st, actions)
    && forall w: nat :: w < |e.workers| && e.workers[w].HasToken? ==>
      Drawn(st, actions, w) == Some(e.workers[w].token)
  }

  ghost predicate RowTold(st: State, actions: seq<Action>) {
    Run(st, actions).row == RowOf(st, actions) && 0 <= RowOf(st, actions).fencingToken
  }

  lemma StepDraws(st: State, actions: seq<Action>)
    requires actions != [] && TokensDrawn(st, actions[..|actions| - 1])
    ensures TokensDrawn(st, actions)
  {
    hide KeyFree, Accepts;
  }

  lemma StepRowTold(st: State, actions: seq<Action>)
    requires actions != [] && TokensDrawn(st, actions[..|actions| - 1]) && RowTold(st, actions[..|actions| - 1])
    ensures RowTold(st, actions)
  {
    var prefix, a := actions[..|actions| - 1], actions[|actions| - 1];
    var e := Run(st, prefix);
    WriteRow(e, a);
    hide Apply, Drawn, Incrs;
  }

  /** What an action does to the row. */
  lemma WriteRow(e: State, a: Action)
    requires 0 <= e.row.fencingToken
    ensures Apply(e, a).row ==
      if a.Write? && Enabled(e, a) && e.workers[a.worker].HasToken? && e.row.fencingToken < e.workers[a.worker].token
      then ResourceRow(e.workers[a.worker].token, Some(a.worker)) else e.row
  {
  }

  /** In every run: the INCRs draw the counter's next values one by one; the row carries the token and the worker of the
      latest write whose token was above the row's, and no other write changes it. */
  lemma {:induction false} RowTellsWrites(st: State, actions: seq<Action>)
    requires Fresh(st)
    ensures Run(st, actions).counter == st.counter + Incrs(st, actions)
    ensures forall w: nat :: w < |Run(st, actions).workers| && Run(st, actions).workers[w].HasToken? ==>
      Drawn(st, actions, w) == Some(Run(st, actions).workers[w].token)
    ensures Run(st, actions).row == RowOf(st, actions)
    ensures TokensDrawn(st, actions) && RowTold(st, actions)
  {
    if actions != [] {
      RowTellsWrites(st, actions[..|actions| - 1]);
      StepDraws(st, actions);
      StepRowTold(st, actions);
    }
    hide Apply, Drawn, Incrs, RowOf, Run;
  }

  // ---- Left alone ----

  /** Undisturbed and in time, a worker acquires the free lock, draws the next token, has its write accepted, and leaves
      the lock free. */
  lemma FlowAlone(st: State, w: nat, ttlMs: nat, took: nat)
    requires w < |st.workers| && st.workers[w] == Idle && KeyFree(st.key, st.clock) && took < ttlMs
    requires st.row.fencingToken <= st.counter
    ensures var drawn := Apply(Apply(st, Acquire(w, ttlMs)), Incr(w));
      var end := Apply(Apply(Apply(drawn, Tick(took)), Write(w)), Release(w));
      && end.row == ResourceRow(st.counter + 1, Some(w)) && end.counter == st.counter + 1 && end.key == None
      && end.accepted == st.accepted + [Accepted(st.holds + 1, st.counter + 1)]
      && w < |end.workers| && end.workers[w] == Idle
  {
    var drawn := Apply(Apply(st, Acquire(w, ttlMs)), Incr(w));
    assert drawn.workers[w] == HasToken(st.holds + 1, st.clock + ttlMs, st.counter + 1);
    var wrote := Apply(Apply(drawn, Tick(took)), Write(w));
    assert wrote.workers[w] == Wrote(st.holds + 1, st.clock + ttlMs) && wrote.key == drawn.key;
  }

  /** A crashed holder keeps nobody out longer than its lease: the key stays as it is, and only the worker forgets. */
  lemma CrashKeepsLease(st: State, w: nat, took: nat)
    requires Holder(st, w) && LockInv(st)
    ensures var crashed := Apply(st, Crash(w));
      && w < |crashed.workers| && crashed.workers[w] == Idle && crashed.key == st.key && crashed.row == st.row
      && (KeyFree(crashed.key, st.clock + took) <==> st.clock + took >= st.workers[w].expiresAt)
  {
  }
}
