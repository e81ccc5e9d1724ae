/** The row-lock reservation as lock, read, write and commit steps, interleaved with every other statement on
    the seats: each finished attempt is one atomic conditional reservation. */
module SeatReservation {
  import opened Wrappers
  import opened Seats

  const MS_PER_MINUTE := 60_000

  /** A row-lock transaction, after each of its statements. The UPDATE of `Written` is not yet visible to others. */
  datatype Tx =
    | Idle
    | Locked(seat: nat, buyer: string, holdMinutes: int)
    | HasRead(seat: nat, buyer: string, holdMinutes: int, status: Option<Status>)
    | Written(seat: nat, buyer: string, token: nat, until: int)

  datatype State = State(clock: int, nextToken: nat, board: Board, workers: seq<Tx>)

  /** One step. `Abort` is a rollback on an error, a lost connection or a crash. */
  datatype Action =
    | Lock(worker: nat, seat: nat, buyer: string, holdMinutes: int)
    | Read(worker: nat)
    | Write(worker: nat)
    | Commit(worker: nat)
    | GiveUp(worker: nat)
    | Abort(worker: nat)
    | Conditional(seat: nat, buyer: string, holdMinutes: int)
    | Payment(seat: nat, token: nat)
    | Expiry
    | Tick(elapsed: nat)

  /** Some open transaction holds the row lock; a missing row cannot be locked. */
  predicate LockHeld(st: State, s: nat) {
    s in st.board.seats && exists w :: 0 <= w < |st.workers| && st.workers[w] != Idle && st.workers[w].seat == s
  }

  /** An UPDATE waits only for the locks of the rows its WHERE clause matches. */
  predicate Enabled(st: State, a: Action) {
    match a
    case Lock(w, s, _, _) => w < |st.workers| && st.workers[w] == Idle && !LockHeld(st, s)
    case Read(w) => w < |st.workers| && st.workers[w].Locked?
    case Write(w) => w < |st.workers| && st.workers[w].HasRead? && st.workers[w].status == Some(Available)
    case GiveUp(w) => w < |st.workers| && st.workers[w].HasRead? && st.workers[w].status != Some(Available)
    case Commit(w) => w < |st.workers| && st.workers[w].Written?
    case Abort(w) => w < |st.workers|
    case Conditional(s, _, _) => IsAvailable(st.board.seats, s) ==> !LockHeld(st, s)
    case Payment(s, token) => Payable(st.board.seats, s, token, st.clock) ==> !LockHeld(st, s)
    case Expiry => forall s :: s in LapsedRows(st.board.seats, st.clock) ==> !LockHeld(st, s)
    case Tick(_) => true
  }

  function SetTx(st: State, w: nat, tx: Tx): State
    requires w < |st.workers|
  {
    st.(workers := st.workers[w := tx])
  }

  function Apply(st: State, a: Action): State {
    if !Enabled(st, a) then st
    else match a
      case Lock(w, s, buyer, hold) => SetTx(st, w, Locked(s, buyer, hold))
      case Read(w) =>
        var tx := st.workers[w];
        SetTx(st, w, HasRead(tx.seat, tx.buyer, tx.holdMinutes,
                             if tx.seat in st.board.seats then Some(st.board.seats[tx.seat].status) else None))
      case Write(w) =>
        var tx := st.workers[w];
        SetTx(st, w, Written(tx.seat, tx.buyer, st.nextToken, st.clock + tx.holdMinutes * MS_PER_MINUTE))
          .(nextToken := st.nextToken + 1)
      case Commit(w) =>
        var tx := st.workers[w];
        SetTx(st, w, Idle).(board := Board(st.board.seats[tx.seat := Held(tx.buyer, tx.token, tx.until)],
                                           st.board.history + [SeatReserved(tx.seat, tx.token)]))
      case GiveUp(w) =>
        SetTx(st, w, Idle).(board := st.board.(history := st.board.history + [Unavailable(st.workers[w].seat)]))
      case Abort(w) => SetTx(st, w, Idle)
      case Conditional(s, buyer, hold) =>
        st.(nextToken := st.nextToken + 1, board := Exec(st.board, ConditionalOf(st, s, buyer, hold)))
      case Payment(s, token) => st.(board := Exec(st.board, Pay(s, token, st.clock)))
      case Expiry => st.(board := Exec(st.board, Expire(st.clock)))
      case Tick(elapsed) => st.(clock := st.clock + elapsed)
  }

  function Run(st: State, actions: seq<Action>): State {
    if actions == [] then st else Apply(Run(st, actions[..|actions| - 1]), actions[|actions| - 1])
  }

  // ---- The atomic statements that a run amounts to ----

  function ConditionalOf(st: State, s: nat, buyer: string, hold: int): Statement {
    Reserve(s, buyer, st.nextToken, st.clock + hold * MS_PER_MINUTE)
  }

  /** A row-lock attempt counts as the conditional reservation at the step that ends it; its other steps count
      as nothing. */
  function StatementsOf(st: State, a: Action): (sts: seq<Statement>)
    ensures |sts| <= 1
  {
    if !Enabled(st, a) then []
    else match a
      case Commit(w) => [Reserve(st.workers[w].seat, st.workers[w].buyer, st.workers[w].token, st.workers[w].until)]
      case GiveUp(w) => [ConditionalOf(st, st.workers[w].seat, st.workers[w].buyer, st.workers[w].holdMinutes)]
      case Conditional(s, buyer, hold) => [ConditionalOf(st, s, buyer, hold)]
      case Payment(s, token) => [Pay(s, token, st.clock)]
      case Expiry => [Expire(st.clock)]
      case _ => []
  }

  function Trace(st: State, actions: seq<Action>): seq<Statement> {
    if actions == [] then [] else
      var prefix := actions[..|actions| - 1];
      Trace(st, prefix) + StatementsOf(Run(st, prefix), actions[|actions| - 1])
  }

  /** Under its lock, a transaction's seat is as it was read, and nobody else has it. */
  ghost predicate LockInv(st: State) {
    && (forall v, w :: 0 <= v < w < |st.workers| && st.workers[v] != Idle && st.workers[w] != Idle ==>
          st.workers[v].seat != st.workers[w].seat || st.workers[v].seat !in st.board.seats)
    && (forall w :: 0 <= w < |st.workers| && st.workers[w].HasRead? ==>
          match st.workers[w].status
          case None => st.workers[w].seat !in st.board.seats
          case Some(status) =>
            && st.workers[w].seat in st.board.seats
            && st.board.seats[st.workers[w].seat].status == status)
    && (forall w :: 0 <= w < |st.workers| && st.workers[w].Written? ==> IsAvailable(st.board.seats, st.workers[w].seat))
  }

  /** `randomUUID()` never repeats. */
  ghost predicate TokensBelow(st: State) {
    && (forall token: nat :: Used(st.board, token) ==> token < st.nextToken)
    && (forall w :: 0 <= w < |st.workers| && st.workers[w].Written? ==>
          st.workers[w].token < st.nextToken && !Used(st.board, st.workers[w].token))
    && (forall v, w :: 0 <= v < w < |st.workers| && st.workers[v].Written? && st.workers[w].Written? ==>
          st.workers[v].token != st.workers[w].token)
  }

  ghost predicate Fresh(st: State) {
    && st.board.history == [] && TokensUnique(st.board.seats)
    && (forall token: nat :: Used(st.board, token) ==> token < st.nextToken)
    && forall w :: 0 <= w < |st.workers| ==> st.workers[w] == Idle
  }

  lemma StepRefines(st: State, a: Action)
    requires LockInv(st)
    ensures Apply(st, a).board == ExecAll(st.board, StatementsOf(st, a))
  {
    var sts := StatementsOf(st, a);
    if sts != [] {
      assert sts[..0] == [];
      assert ExecAll(st.board, sts) == Exec(st.board, sts[0]);
    }
  }

  /** No step but its own commit changes a row that a transaction has locked. */
  lemma LockedRowStays(st: State, a: Action, w: nat)
    requires LockInv(st) && w < |st.workers| && st.workers[w] != Idle && a != Commit(w)
    ensures Apply(st, a).board.seats.Keys == st.board.seats.Keys
    ensures st.workers[w].seat in st.board.seats ==>
      Apply(st, a).board.seats[st.workers[w].seat] == st.board.seats[st.workers[w].seat]
  {
    var s := st.workers[w].seat;
    if s in st.board.seats {
      assert LockHeld(st, s);
      assert a.Expiry? && Enabled(st, a) ==> s !in LapsedRows(st.board.seats, st.clock);
    }
  }

  /** A rollback leaves the table and the outcomes alone, and nobody holds the row's lock any more. */
  lemma AbortFreesRow(st: State, w: nat)
    requires LockInv(st) && w < |st.workers| && st.workers[w] != Idle
    ensures var next := Apply(st, Abort(w));
      && next.board == st.board && w < |next.workers| && next.workers[w] == Idle
      && !LockHeld(next, st.workers[w].seat)
  {
  }

  lemma StepKeepsLocks(st: State, a: Action)
    requires LockInv(st)
    ensures LockInv(Apply(st, a))
  {
    forall w: nat | w < |st.workers| && st.workers[w] != Idle && a != Commit(w)
      ensures Apply(st, a).board.seats.Keys == st.board.seats.Keys
      ensures st.workers[w].seat in st.board.seats ==>
        Apply(st, a).board.seats[st.workers[w].seat] == st.board.seats[st.workers[w].seat]
    {
      LockedRowStays(st, a, w);
      hide Apply, Exec;
    }
    hide Exec, LockHeld;
  }

  /** A statement uses up no token but the one it is given. */
  lemma ExecUses(b: Board, st: Statement, token: nat)
    requires Used(Exec(b, st), token)
    ensures Used(b, token) || (st.Reserve? && IsAvailable(b.seats, st.seat) && st.token == token)
  {
    var after := Exec(b, st);
    var o := after.history[|b.history|];
    assert after.history == b.history + [o];
    if s: nat :| SoldUnder(after.history, s, token) {
      SoldUnderAppend(b.history, o, s, token);
    } else if s: nat :| ExpiredUnder(after.history, s, token) {
      ExpiredUnderAppend(b.history, o, s, token);
    }
  }

  lemma StepKeepsTokens(st: State, a: Action)
    requires LockInv(st) && TokensBelow(st)
    ensures TokensBelow(Apply(st, a))
    ensures forall k :: 0 <= k < |StatementsOf(st, a)| ==> FreshFor(st.board, StatementsOf(st, a)[k])
  {
    StepRefines(st, a);
    var sts := StatementsOf(st, a);
    assert sts != [] ==> sts[..0] == [];
    forall token: nat | Used(Apply(st, a).board, token)
      ensures Used(st.board, token)
        || (sts != [] && sts[0].Reserve? && IsAvailable(st.board.seats, sts[0].seat) && sts[0].token == token)
    {
      if sts != [] {
        assert ExecAll(st.board, sts) == Exec(st.board, sts[0]);
        ExecUses(st.board, sts[0], token);
      }
    }
    hide Exec, LockHeld, Used;
  }

  // ---- Whole runs ----

  lemma {:induction false} ExecAllConcat(b: Board, x: seq<Statement>, y: seq<Statement>)
    ensures ExecAll(b, x + y) == ExecAll(ExecAll(b, x), y)
  {
    if y == [] {
      assert x + y == x;
    } else {
      ExecAllConcat(b, x, y[..|y| - 1]);
      assert (x + y)[..|x + y| - 1] == x + y[..|y| - 1];
    }
  }

  /** Every run of row-lock attempts, conditional reservations, payments, expirations and crashes leaves the table
      and the reported outcomes that its atomic statements leave, one after the other. */
  lemma {:induction false} RunRefines(st: State, actions: seq<Action>)
    requires Fresh(st)
    ensures LockInv(Run(st, actions)) && TokensBelow(Run(st, actions))
    ensures Run(st, actions).board == ExecAll(st.board, Trace(st, actions))
    ensures FreshTokens(st.board, Trace(st, actions))
  {
    if actions != [] {
      var prefix, a := actions[..|actions| - 1], actions[|actions| - 1];
      RunRefines(st, prefix);
      var mid, sts := Run(st, prefix), StatementsOf(Run(st, prefix), a);
      StepRefines(mid, a);
      StepKeepsLocks(mid, a);
      StepKeepsTokens(mid, a);
      ExecAllConcat(st.board, Trace(st, prefix), sts);
      FreshTokensExtend(st.board, Trace(st, prefix), sts);
    }
  }

  lemma FreshTokensExtend(b: Board, x: seq<Statement>, y: seq<Statement>)
    requires FreshTokens(b, x) && |y| <= 1
    requires forall k :: 0 <= k < |y| ==> FreshFor(ExecAll(b, x), y[k])
    ensures FreshTokens(b, x + y)
  {
    var all := x + y;
    forall k {:trigger all[k]} | 0 <= k < |all| ensures FreshFor(ExecAll(b, all[..k]), all[k]) {
      if k < |x| {
        assert all[..k] == x[..k] && all[k] == x[k];
      } else {
        assert all[..k] == x;
      }
    }
  }

  /** In every interleaving: 'reserved' outcomes minus expirations of a seat are one if somebody has it and nought
      if it is available (from an available start), and no token is both paid for and expired. */
  lemma RunSafe(st: State, actions: seq<Action>)
    requires Fresh(st)
    ensures forall s: nat :: var end := Run(st, actions).board;
      Balance(end.history, s) == Holders(end.seats, s) - Holders(st.board.seats, s)
    ensures forall s: nat, t: nat, token: nat :: var history := Run(st, actions).board.history;
      !(SoldUnder(history, s, token) && ExpiredUnder(history, t, token))
  {
    RunRefines(st, actions);
    forall s: nat
      ensures var end := Run(st, actions).board;
        Balance(end.history, s) == Holders(end.seats, s) - Holders(st.board.seats, s)
    {
      SeatBalance(st.board, Trace(st, actions), s);
    }
    NeverSoldAndExpired(st.board, Trace(st, actions));
  }

  /** From any reachable state on, a sold seat keeps its row. */
  lemma {:induction false} RunSoldIsFinal(st: State, actions: seq<Action>, s: nat)
    requires LockInv(st) && s in st.board.seats && st.board.seats[s].status == Sold
    ensures LockInv(Run(st, actions))
    ensures s in Run(st, actions).board.seats && Run(st, actions).board.seats[s] == st.board.seats[s]
  {
    if actions != [] {
      RunSoldIsFinal(st, actions[..|actions| - 1], s);
      var mid, a := Run(st, actions[..|actions| - 1]), actions[|actions| - 1];
      StepKeepsLocks(mid, a);
      StepRefines(mid, a);
      SoldIsFinal(mid.board, StatementsOf(mid, a), s);
    }
  }
}
