/** Two consumers of at-least-once messages: dedup row and effect in one transaction, and check-then-act. */
module Inbox {
  import opened Integers

  datatype Message = Message(id: nat, account: nat, amount: int)

  /** The amounts that a list of `processed_messages` rows credits to an account. */
  function Credits(rows: seq<Message>, account: nat): int {
    if rows == [] then 0 else
      Credits(rows[..|rows| - 1], account) + if rows[|rows| - 1].account == account then rows[|rows| - 1].amount else 0
  }

  function Ids(rows: seq<Message>): set<nat> {
    set i | 0 <= i < |rows| :: rows[i].id
  }

  /** The primary key of `processed_messages`. */
  predicate UniqueIds(rows: seq<Message>) {
    forall i, j :: 0 <= i < j < |rows| ==> rows[i].id != rows[j].id
  }

  lemma CreditsAppend(rows: seq<Message>, row: Message)
    ensures forall a :: Credits(rows + [row], a) == Credits(rows, a) + if row.account == a then row.amount else 0
  {
    assert (rows + [row])[..|rows|] == rows;
  }

  /** What the INSERT checks before it looks for a conflict: the column's type, and its CHECK. */
  predicate ValidAmount(amount: int) {
    0 < amount <= INT4_MAX
  }

  predicate ValidBalance(b: int) {
    0 <= b <= INT4_MAX
  }

  // ---- The transactional consumer ----

  /** A worker's open transaction: after its INSERT, and after its UPDATE, neither of them visible to others. */
  datatype Tx = NoTx | Inserted(m: Message) | Updated(m: Message, balance: int)

  /** Committed tables, and the open transaction of each worker. */
  datatype State = State(accounts: map<nat, int>, processed: seq<Message>, workers: seq<Tx>)

  /** One statement of one worker. `Rollback` is a rollback, a lost worker, or a crash. */
  datatype Action = Insert(worker: nat, m: Message) | Update(worker: nat) | Commit(worker: nat) | Rollback(worker: nat)

  /** Another transaction holds an uncommitted row with this key, so the INSERT waits for it. */
  predicate KeyHeld(st: State, worker: nat, id: nat) {
    exists w :: 0 <= w < |st.workers| && w != worker && !st.workers[w].NoTx? && st.workers[w].m.id == id
  }

  /** Another transaction has updated the account row and not committed, so the UPDATE waits for it. */
  predicate AccountLocked(st: State, worker: nat, account: nat) {
    exists w :: 0 <= w < |st.workers| && w != worker && st.workers[w].Updated? && st.workers[w].m.account == account
  }

  predicate Enabled(st: State, a: Action) {
    a.worker < |st.workers| &&
    match a
    case Insert(w, m) => st.workers[w].NoTx? && !KeyHeld(st, w, m.id)
    case Update(w) => st.workers[w].Inserted? && !AccountLocked(st, w, st.workers[w].m.account)
    case Commit(w) => st.workers[w].Updated?
    case Rollback(w) => true
  }

  function Apply(st: State, a: Action): State {
    if !Enabled(st, a) then st
    else match a
      case Insert(w, m) =>
        // a rejected amount, ON CONFLICT DO NOTHING, and the foreign key
        if !ValidAmount(m.amount) || m.id in Ids(st.processed) || m.account !in st.accounts then st
        else st.(workers := st.workers[w := Inserted(m)])
      case Update(w) =>
        var m := st.workers[w].m;
        if m.account in st.accounts && ValidBalance(st.accounts[m.account] + m.amount)
        then st.(workers := st.workers[w := Updated(m, st.accounts[m.account] + m.amount)])
        else st.(workers := st.workers[w := NoTx])
      case Commit(w) =>
        var tx := st.workers[w];
        State(st.accounts[tx.m.account := tx.balance], st.processed + [tx.m], st.workers[w := NoTx])
      case Rollback(w) => st.(workers := st.workers[w := NoTx])
  }

  function Run(st: State, actions: seq<Action>): State {
    if actions == [] then st else Apply(Run(st, actions[..|actions| - 1]), actions[|actions| - 1])
  }

  predicate Fresh(st: State) {
    && (forall a :: a in st.accounts ==> ValidBalance(st.accounts[a]))
    && st.processed == [] && forall w :: 0 <= w < |st.workers| ==> st.workers[w] == NoTx
  }

  /** An open transaction's key is in nobody else's, nor committed; its new balance is still one credit ahead. */
  ghost predicate TxsApart(st: State) {
    && (forall w :: 0 <= w < |st.workers| && !st.workers[w].NoTx? ==>
          st.workers[w].m.id !in Ids(st.processed) && st.workers[w].m.account in st.accounts)
    && (forall v, w :: 0 <= v < w < |st.workers| && !st.workers[v].NoTx? && !st.workers[w].NoTx? ==>
          st.workers[v].m.id != st.workers[w].m.id)
    && (forall w :: 0 <= w < |st.workers| && st.workers[w].Updated? ==>
          && st.workers[w].balance == st.accounts[st.workers[w].m.account] + st.workers[w].m.amount
          && ValidBalance(st.workers[w].balance))
    && (forall v, w :: 0 <= v < w < |st.workers| && st.workers[v].Updated? && st.workers[w].Updated? ==>
          st.workers[v].m.account != st.workers[w].m.account)
  }

  ghost predicate Balanced(initial: map<nat, int>, st: State) {
    && st.accounts.Keys == initial.Keys
    && (forall a :: a in initial ==>
          st.accounts[a] == initial[a] + Credits(st.processed, a) && ValidBalance(st.accounts[a]))
    && UniqueIds(st.processed)
  }

  /** A rollback leaves the committed tables alone, and nobody waits for its message or its account any more. */
  lemma RollbackFrees(st: State, w: nat)
    requires TxsApart(st) && w < |st.workers| && !st.workers[w].NoTx?
    ensures var next, m := Apply(st, Rollback(w)), st.workers[w].m;
      && next.accounts == st.accounts && next.processed == st.processed
      && (forall v: nat :: !KeyHeld(next, v, m.id))
      && (st.workers[w].Updated? ==> forall v: nat :: !AccountLocked(next, v, m.account))
  {
  }

  lemma ApplyKeepsTxs(st: State, a: Action)
    requires TxsApart(st)
    ensures TxsApart(Apply(st, a))
  {
    if a.Commit? && Enabled(st, a) {
      CommitKeepsTxs(st, a.worker);
    } else if a.Update? && Enabled(st, a) {
      UpdateKeepsTxs(st, a.worker);
    }
  }

  lemma UpdateKeepsTxs(st: State, w: nat)
    requires TxsApart(st) && Enabled(st, Update(w))
    ensures TxsApart(Apply(st, Update(w)))
  {
  }

  lemma CommitKeepsTxs(st: State, w: nat)
    requires TxsApart(st) && Enabled(st, Commit(w))
    ensures TxsApart(Apply(st, Commit(w)))
  {
    var m := st.workers[w].m;
    assert forall id :: id in Ids(st.processed + [m]) ==> id in Ids(st.processed) || id == m.id;
  }

  lemma ApplyKeepsBalanced(initial: map<nat, int>, st: State, a: Action)
    requires TxsApart(st) && Balanced(initial, st)
    ensures Balanced(initial, Apply(st, a))
  {
    if a.Commit? && Enabled(st, a) {
      CreditsAppend(st.processed, st.workers[a.worker].m);
    }
  }

  /** In every reachable committed state, under any concurrency, redelivery and crashes: every account holds its
      initial balance plus the amounts of its `processed_messages` rows, and no message has two rows. */
  lemma {:induction false} RunBalanced(st: State, actions: seq<Action>)
    requires Fresh(st)
    ensures TxsApart(Run(st, actions)) && Balanced(st.accounts, Run(st, actions))
  {
    if actions != [] {
      RunBalanced(st, actions[..|actions| - 1]);
      ApplyKeepsTxs(Run(st, actions[..|actions| - 1]), actions[|actions| - 1]);
      ApplyKeepsBalanced(st.accounts, Run(st, actions[..|actions| - 1]), actions[|actions| - 1]);
    }
  }

  // ---- Order, redelivery and concurrency do not matter ----

  /** A message id fixes its content. */
  ghost predicate ContentFixed(x: seq<Message>, y: seq<Message>) {
    forall i, j :: 0 <= i < |x| && 0 <= j < |y| && x[i].id == y[j].id ==> x[i] == y[j]
  }

  /** The rows but the one at `k`. */
  function Without(rows: seq<Message>, k: nat): seq<Message>
    requires k < |rows|
  {
    rows[..k] + rows[k + 1..]
  }

  lemma WithoutKeepsLast(rows: seq<Message>, k: nat)
    requires k < |rows| - 1
    ensures Without(rows, k) == Without(rows[..|rows| - 1], k) + [rows[|rows| - 1]]
  {
    var n := |rows| - 1;
    assert forall i :: 0 <= i < n ==> Without(rows, k)[i] == (Without(rows[..n], k) + [rows[n]])[i];
  }

  lemma WithoutLast(rows: seq<Message>)
    requires rows != []
    ensures Without(rows, |rows| - 1) == rows[..|rows| - 1]
  {
  }

  /** Taking one row out of the middle takes out its credit. */
  lemma {:induction false} CreditsRemove(rows: seq<Message>, k: nat, account: nat)
    requires k < |rows|
    ensures Credits(rows, account)
      == Credits(Without(rows, k), account) + if rows[k].account == account then rows[k].amount else 0
  {
    var n := |rows| - 1;
    if k == n {
      WithoutLast(rows);
    } else {
      WithoutKeepsLast(rows, k);
      CreditsAppend(Without(rows[..n], k), rows[n]);
      CreditsRemove(rows[..n], k, account);
    }
    hide Without;
  }

  lemma RemoveOne(rows: seq<Message>, k: nat)
    requires k < |rows| && UniqueIds(rows)
    ensures UniqueIds(Without(rows, k))
    ensures Ids(Without(rows, k)) == Ids(rows) - {rows[k].id}
  {
    var rest := Without(rows, k);
    forall id | id in Ids(rows) - {rows[k].id} ensures id in Ids(rest) {
      var i :| 0 <= i < |rows| && rows[i].id == id;
      assert rest[if i < k then i else i - 1].id == id;
    }
  }

  lemma {:induction false} CreditsByIds(x: seq<Message>, y: seq<Message>, account: nat)
    requires UniqueIds(x) && UniqueIds(y) && Ids(x) == Ids(y) && ContentFixed(x, y)
    ensures Credits(x, account) == Credits(y, account)
  {
    assert |y| > 0 ==> y[0].id in Ids(y);
    if x != [] {
      var n := |x| - 1;
      assert x[n].id in Ids(y);
      var k :| 0 <= k < |y| && y[k].id == x[n].id;
      WithoutLast(x);
      RemoveOne(x, n);
      RemoveOne(y, k);
      CreditsRemove(y, k, account);
      assert ContentFixed(x[..n], Without(y, k));
      hide UniqueIds, Without, ContentFixed, Ids;
      CreditsByIds(x[..n], Without(y, k), account);
    }
  }

  /** Two runs from the same accounts that have applied the same messages agree on every balance, whatever
      the order, the redeliveries, the interleaving and the crashes of either. */
  lemma FinalBalancesByMessages(st: State, a: seq<Action>, b: seq<Action>)
    requires Fresh(st)
    requires Ids(Run(st, a).processed) == Ids(Run(st, b).processed)
      && ContentFixed(Run(st, a).processed, Run(st, b).processed)
    ensures Run(st, a).accounts == Run(st, b).accounts
  {
    RunBalanced(st, a);
    RunBalanced(st, b);
    forall acc | acc in st.accounts ensures Run(st, a).accounts[acc] == Run(st, b).accounts[acc] {
      CreditsByIds(Run(st, a).processed, Run(st, b).processed, acc);
    }
  }

  // ---- The contrast: check, UPDATE and INSERT as three statements ----

  datatype RacyPhase = NotStarted | Checked(m: Message) | Credited(m: Message)

  /** `conflicts` are the messages whose call ended with `applied-but-insert-conflicted`. */
  datatype RacyState = RacyState(
    accounts: map<nat, int>, processed: seq<Message>, workers: seq<RacyPhase>, conflicts: seq<Message>)

  datatype RacyAction = Check(worker: nat, m: Message) | Credit(worker: nat) | Record(worker: nat)

  function RacyApply(st: RacyState, a: RacyAction): RacyState {
    if a.worker >= |st.workers| then st
    else match a
      case Check(w, m) =>
        if st.workers[w].NotStarted? && m.id !in Ids(st.processed)
        then st.(workers := st.workers[w := Checked(m)])
        else st
      case Credit(w) =>
        if !st.workers[w].Checked? then st
        else
          var m := st.workers[w].m;
          if !FitsInt4(m.amount) then st.(workers := st.workers[w := NotStarted])
          else if m.account !in st.accounts then st.(workers := st.workers[w := Credited(m)])
          else if !ValidBalance(st.accounts[m.account] + m.amount) then st.(workers := st.workers[w := NotStarted])
          else st.(accounts := st.accounts[m.account := st.accounts[m.account] + m.amount],
                   workers := st.workers[w := Credited(m)])
      case Record(w) =>
        if !st.workers[w].Credited? then st
        else
          var m := st.workers[w].m;
          // any failure of the INSERT is reported as a conflict
          if m.id in Ids(st.processed) || m.account !in st.accounts || !ValidAmount(m.amount)
          then st.(workers := st.workers[w := NotStarted], conflicts := st.conflicts + [m])
          else st.(workers := st.workers[w := NotStarted], processed := st.processed + [m])
  }

  function RacyRun(st: RacyState, actions: seq<RacyAction>): RacyState {
    if actions == [] then st else RacyApply(RacyRun(st, actions[..|actions| - 1]), actions[|actions| - 1])
  }

  predicate RacyIdle(st: RacyState) {
    forall w :: 0 <= w < |st.workers| ==> st.workers[w] == NotStarted
  }

  /** Credits given whose row is not yet inserted. */
  function InFlight(workers: seq<RacyPhase>, account: nat): int {
    if workers == [] then 0 else
      var p := workers[|workers| - 1];
      InFlight(workers[..|workers| - 1], account) + if p.Credited? && p.m.account == account then p.m.amount else 0
  }

  lemma {:induction false} InFlightUpdate(workers: seq<RacyPhase>, w: nat, p: RacyPhase, account: nat)
    requires w < |workers|
    ensures InFlight(workers[w := p], account) == InFlight(workers, account)
      + (if p.Credited? && p.m.account == account then p.m.amount else 0)
      - (if workers[w].Credited? && workers[w].m.account == account then workers[w].m.amount else 0)
  {
    var n := |workers| - 1;
    if w < n {
      InFlightUpdate(workers[..n], w, p, account);
      assert workers[w := p][..n] == workers[..n][w := p];
    } else {
      assert workers[w := p][..n] == workers[..n];
    }
  }

  lemma {:induction false} InFlightIdle(workers: seq<RacyPhase>, account: nat)
    requires forall w :: 0 <= w < |workers| ==> workers[w] == NotStarted
    ensures InFlight(workers, account) == 0
  {
    if workers != [] {
      InFlightIdle(workers[..|workers| - 1], account);
    }
  }

  ghost predicate RacyBalanced(initial: map<nat, int>, st: RacyState) {
    && st.accounts.Keys == initial.Keys
    && forall a :: a in initial ==>
      st.accounts[a] == initial[a] + Credits(st.processed, a) + Credits(st.conflicts, a) + InFlight(st.workers, a)
  }

  lemma RacyApplyBalanced(initial: map<nat, int>, st: RacyState, a: RacyAction)
    requires RacyBalanced(initial, st)
    ensures RacyBalanced(initial, RacyApply(st, a))
  {
    if a.worker < |st.workers| {
      var next := RacyApply(st, a);
      forall acc | acc in initial
        ensures next.accounts[acc]
          == initial[acc] + Credits(next.processed, acc) + Credits(next.conflicts, acc) + InFlight(next.workers, acc)
      {
        InFlightUpdate(st.workers, a.worker, next.workers[a.worker], acc);
        if !st.workers[a.worker].NotStarted? {
          CreditsAppend(st.processed, st.workers[a.worker].m);
          CreditsAppend(st.conflicts, st.workers[a.worker].m);
        }
      }
    }
  }

  /** Without crashes, the racy consumer over-credits by exactly one amount per conflicted call: when all
      calls are over, each balance is the initial one plus its rows plus its conflicts. */
  lemma {:induction false} RacyOvercredit(st: RacyState, actions: seq<RacyAction>)
    requires RacyIdle(st) && st.processed == [] && st.conflicts == []
    ensures RacyBalanced(st.accounts, RacyRun(st, actions))
    ensures RacyIdle(RacyRun(st, actions)) ==> forall a :: a in st.accounts ==>
      var end := RacyRun(st, actions);
      a in end.accounts && end.accounts[a] == st.accounts[a] + Credits(end.processed, a) + Credits(end.conflicts, a)
  {
    if actions == [] {
      forall a | a in st.accounts ensures InFlight(st.workers, a) == 0 {
        InFlightIdle(st.workers, a);
      }
    } else {
      RacyOvercredit(st, actions[..|actions| - 1]);
      RacyApplyBalanced(st.accounts, RacyRun(st, actions[..|actions| - 1]), actions[|actions| - 1]);
    }
    var end := RacyRun(st, actions);
    if RacyIdle(end) {
      forall a | a in st.accounts ensures InFlight(end.workers, a) == 0 {
        InFlightIdle(end.workers, a);
      }
    }
  }

  /** The double credit: two workers that both check a new message before either records it credit it twice, leave one
      row, and report one conflict. */
  lemma RacyCreditsTwice(st: RacyState, v: nat, w: nat, m: Message)
    requires RacyIdle(st) && v < |st.workers| && w < |st.workers| && v != w
    requires m.id !in Ids(st.processed) && m.account in st.accounts && m.amount >= 1
    requires 0 <= st.accounts[m.account] && st.accounts[m.account] + 2 * m.amount <= 2147483647
    ensures var end := RacyRun(st, [Check(v, m), Check(w, m), Credit(v), Record(v), Credit(w), Record(w)]);
      && end.accounts == st.accounts[m.account := st.accounts[m.account] + 2 * m.amount]
      && end.processed == st.processed + [m] && end.conflicts == st.conflicts + [m]
  {
    RacyRunSix(st, Check(v, m), Check(w, m), Credit(v), Record(v), Credit(w), Record(w));
    hide RacyRun;
    var checked := RacyApply(RacyApply(st, Check(v, m)), Check(w, m));
    assert checked == st.(workers := st.workers[v := Checked(m)][w := Checked(m)]);
    var first := RacyApply(RacyApply(checked, Credit(v)), Record(v));
    RacyFirst(checked, v, m);
    RacySecond(first, w, m);
    hide RacyApply, Ids;
  }

  /** The worker that records first. */
  lemma RacyFirst(st: RacyState, v: nat, m: Message)
    requires v < |st.workers| && st.workers[v] == Checked(m) && m.id !in Ids(st.processed) && m.account in st.accounts
    requires 1 <= m.amount && 0 <= st.accounts[m.account] && st.accounts[m.account] + m.amount <= 2147483647
    ensures RacyApply(RacyApply(st, Credit(v)), Record(v))
      == st.(accounts := st.accounts[m.account := st.accounts[m.account] + m.amount], processed := st.processed + [m],
             workers := st.workers[v := NotStarted])
    ensures m.id in Ids(st.processed + [m])
  {
    assert (st.processed + [m])[|st.processed|].id == m.id;
    assert st.workers[v := Credited(m)][v := NotStarted] == st.workers[v := NotStarted];
  }

  /** The worker that finds the row there. */
  lemma RacySecond(st: RacyState, w: nat, m: Message)
    requires w < |st.workers| && st.workers[w] == Checked(m) && m.id in Ids(st.processed) && m.account in st.accounts
    requires 1 <= m.amount && 0 <= st.accounts[m.account] && st.accounts[m.account] + m.amount <= 2147483647
    ensures RacyApply(RacyApply(st, Credit(w)), Record(w))
      == st.(accounts := st.accounts[m.account := st.accounts[m.account] + m.amount], conflicts := st.conflicts + [m],
             workers := st.workers[w := NotStarted])
  {
    assert st.workers[w := Credited(m)][w := NotStarted] == st.workers[w := NotStarted];
  }

  lemma RacyRunSix(st: RacyState, a: RacyAction, b: RacyAction, c: RacyAction, d: RacyAction, e: RacyAction,
                   f: RacyAction)
    ensures RacyRun(st, [a, b, c, d, e, f])
      == RacyApply(RacyApply(RacyApply(RacyApply(RacyApply(RacyApply(st, a), b), c), d), e), f)
  {
    hide RacyApply;
    assert [a, b, c, d, e, f][..5] == [a, b, c, d, e] && [a, b, c, d, e][..4] == [a, b, c, d];
    assert [a, b, c, d][..3] == [a, b, c] && [a, b, c][..2] == [a, b] && [a, b][..1] == [a] && [a][..0] == [];
    assert RacyRun(st, [a]) == RacyApply(st, a);
    assert RacyRun(st, [a, b]) == RacyApply(RacyRun(st, [a]), b);
    assert RacyRun(st, [a, b, c]) == RacyApply(RacyRun(st, [a, b]), c);
    assert RacyRun(st, [a, b, c, d]) == RacyApply(RacyRun(st, [a, b, c]), d);
    assert RacyRun(st, [a, b, c, d, e]) == RacyApply(RacyRun(st, [a, b, c, d]), e);
  }

  // ---- One call, undisturbed ----

  datatype Outcome = Applied | Duplicate | Thrown

  class InboxStore {
    var accounts: map<nat, int>
    var processed: seq<Message>

    function View(): State
      reads this
    {
      State(accounts, processed, [NoTx])
    }

    /** BEGIN, INSERT, UPDATE, COMMIT; or ROLLBACK on a conflict or an error. */
    method ApplyIdempotent(m: Message) returns (outcome: Outcome)
      modifies this
      ensures View() == Run(old(View()), [Insert(0, m), Update(0), Commit(0)])
      ensures outcome == Duplicate <==> 1 <= m.amount <= 2147483647 && m.id in Ids(old(processed))
      ensures outcome == Applied <==> processed == old(processed) + [m]
      ensures outcome == Applied ==>
        && m.account in old(accounts)
        && accounts == old(accounts)[m.account := old(accounts)[m.account] + m.amount]
      ensures outcome == Thrown <==>
        || !(1 <= m.amount <= 2147483647)
        || (m.id !in Ids(old(processed)) &&
            (m.account !in old(accounts) || !(0 <= old(accounts)[m.account] + m.amount <= 2147483647)))
      ensures outcome != Applied ==> View() == old(View())
    {
      ghost var st := View();
      RunThree(st, Insert(0, m), Update(0), Commit(0));
      var begin, rows := accounts, processed;
      assert processed != processed + [m];
      if !ValidAmount(m.amount) {
        return Thrown;
      }
      if m.id in Ids(processed) {
        return Duplicate;
      }
      if m.account !in accounts {
        return Thrown;
      }
      processed := processed + [m];
      var balance := accounts[m.account] + m.amount;
      if !ValidBalance(balance) {
        accounts, processed := begin, rows;
        return Thrown;
      }
      accounts := accounts[m.account := balance];
      return Applied;
    }
  }

  lemma RunThree(st: State, a: Action, b: Action, c: Action)
    ensures Run(st, [a, b, c]) == Apply(Apply(Apply(st, a), b), c)
  {
    assert [a, b, c][..2] == [a, b] && [a, b][..1] == [a] && [a][..0] == [];
    assert Run(st, [a]) == Apply(Run(st, []), a);
  }
}
