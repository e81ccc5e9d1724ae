/** The seats table, its three conditional statements, and what every sequence of them keeps. */
module Seats {
  import opened Wrappers

  datatype Status = Available | Reserved | Sold

  datatype Seat = Seat(status: Status, token: Option<nat>, reservedBy: Option<string>, reservedUntil: Option<int>)

  const FREE := Seat(Available, None, None, None)

  /** What a statement reported to its caller. `Expired` holds the rows the expiry worker reverted, as they were. */
  datatype Outcome =
    | SeatReserved(seat: nat, token: nat)
    | Unavailable(seat: nat)
    | PaymentTaken(seat: nat, token: nat)
    | PaymentFailed(seat: nat)
    | Expired(rows: map<nat, Seat>)

  datatype Statement =
    | Reserve(seat: nat, buyer: string, token: nat, until: int)
    | Pay(seat: nat, token: nat, now: int)
    | Expire(now: int)

  /** The committed table, and everything reported so far. */
  datatype Board = Board(seats: map<nat, Seat>, history: seq<Outcome>)

  predicate IsAvailable(seats: map<nat, Seat>, s: nat) {
    s in seats && seats[s].status == Available
  }

  predicate Payable(seats: map<nat, Seat>, s: nat, token: nat, now: int) {
    && s in seats && seats[s].status == Reserved && seats[s].token == Some(token)
    && seats[s].reservedUntil.Some? && seats[s].reservedUntil.value > now
  }

  predicate Lapsed(row: Seat, now: int) {
    row.status == Reserved && row.reservedUntil.Some? && row.reservedUntil.value < now
  }

  function LapsedRows(seats: map<nat, Seat>, now: int): map<nat, Seat> {
    map s | s in seats && Lapsed(seats[s], now) :: seats[s]
  }

  function Reverted(seats: map<nat, Seat>, now: int): map<nat, Seat> {
    map s | s in seats :: if Lapsed(seats[s], now) then FREE else seats[s]
  }

  function Held(buyer: string, token: nat, until: int): Seat {
    Seat(Reserved, Some(token), Some(buyer), Some(until))
  }

  function Exec(b: Board, st: Statement): Board {
    match st
    case Reserve(s, buyer, token, until) =>
      if IsAvailable(b.seats, s)
      then Board(b.seats[s := Held(buyer, token, until)], b.history + [SeatReserved(s, token)])
      else b.(history := b.history + [Unavailable(s)])
    case Pay(s, token, now) =>
      if Payable(b.seats, s, token, now)
      then Board(b.seats[s := b.seats[s].(status := Sold)], b.history + [PaymentTaken(s, token)])
      else b.(history := b.history + [PaymentFailed(s)])
    case Expire(now) => Board(Reverted(b.seats, now), b.history + [Expired(LapsedRows(b.seats, now))])
  }

  function ExecAll(b: Board, sts: seq<Statement>): Board {
    if sts == [] then b else Exec(ExecAll(b, sts[..|sts| - 1]), sts[|sts| - 1])
  }

  // ---- Reservations minus expirations ----

  /** What one outcome adds to the number of holders of seat `s`. */
  function Change(o: Outcome, s: nat): int {
    match o
    case SeatReserved(seat, _) => if seat == s then 1 else 0
    case Expired(rows) => if s in rows then -1 else 0
    case _ => 0
  }

  /** 'reserved' outcomes of seat `s` minus its expirations. */
  function Balance(history: seq<Outcome>, s: nat): int {
    if history == [] then 0 else Balance(history[..|history| - 1], s) + Change(history[|history| - 1], s)
  }

  function Holders(seats: map<nat, Seat>, s: nat): int {
    if s in seats && seats[s].status != Available then 1 else 0
  }

  lemma BalanceAppend(history: seq<Outcome>, o: Outcome, s: nat)
    ensures Balance(history + [o], s) == Balance(history, s) + Change(o, s)
  {
    assert (history + [o])[..|history|] == history;
  }

  lemma ExpireHolders(seats: map<nat, Seat>, now: int, s: nat)
    ensures Holders(Reverted(seats, now), s) == Holders(seats, s) - if s in LapsedRows(seats, now) then 1 else 0
  {}

  lemma ExecBalance(b: Board, st: Statement, s: nat)
    ensures Balance(Exec(b, st).history, s) - Holders(Exec(b, st).seats, s)
      == Balance(b.history, s) - Holders(b.seats, s)
  {
    var after := Exec(b, st);
    var o := after.history[|b.history|];
    assert after.history == b.history + [o];
    BalanceAppend(b.history, o, s);
    match st
    case Reserve(_, _, _, _) =>
    case Pay(_, _, _) =>
    case Expire(now) => ExpireHolders(b.seats, now, s);
  }

  /** For every seat, from any table and under any sequence of statements. */
  lemma {:induction false} SeatBalance(b: Board, sts: seq<Statement>, s: nat)
    requires b.history == []
    ensures Balance(ExecAll(b, sts).history, s) == Holders(ExecAll(b, sts).seats, s) - Holders(b.seats, s)
  {
    if sts != [] {
      SeatBalance(b, sts[..|sts| - 1], s);
      ExecBalance(ExecAll(b, sts[..|sts| - 1]), sts[|sts| - 1], s);
    }
  }

  // ---- A sale is final ----

  lemma {:induction false} SoldIsFinal(b: Board, sts: seq<Statement>, s: nat)
    requires s in b.seats && b.seats[s].status == Sold
    ensures s in ExecAll(b, sts).seats && ExecAll(b, sts).seats[s] == b.seats[s]
  {
    if sts != [] {
      SoldIsFinal(b, sts[..|sts| - 1], s);
    }
  }

  // ---- One reservation is never both sold and expired ----

  ghost predicate SoldUnder(history: seq<Outcome>, s: nat, token: nat) {
    PaymentTaken(s, token) in history
  }

  ghost predicate ExpiredUnder(history: seq<Outcome>, s: nat, token: nat) {
    exists i :: 0 <= i < |history| && history[i].Expired? && s in history[i].rows
      && history[i].rows[s].token == Some(token)
  }

  ghost predicate InTable(seats: map<nat, Seat>, token: nat) {
    exists s :: s in seats && seats[s].token == Some(token)
  }

  /** The token has been in the table or in an outcome: a new `randomUUID()` never has. */
  ghost predicate Used(b: Board, token: nat) {
    || InTable(b.seats, token)
    || (exists s: nat :: SoldUnder(b.history, s, token))
    || (exists s: nat :: ExpiredUnder(b.history, s, token))
  }

  ghost predicate FreshFor(b: Board, st: Statement) {
    st.Reserve? ==> !Used(b, st.token)
  }

  ghost predicate FreshTokens(b: Board, sts: seq<Statement>) {
    forall k {:trigger sts[k]} :: 0 <= k < |sts| ==> FreshFor(ExecAll(b, sts[..k]), sts[k])
  }

  ghost predicate TokensUnique(seats: map<nat, Seat>) {
    forall s, t :: s in seats && t in seats && s != t && seats[s].token.Some? ==> seats[s].token != seats[t].token
  }

  /** Tokens of sales stay in their sold row, and tokens of expirations have left the table. */
  ghost predicate TokenInv(b: Board) {
    && TokensUnique(b.seats)
    && (forall s: nat, token: nat :: SoldUnder(b.history, s, token) ==>
          s in b.seats && b.seats[s].status == Sold && b.seats[s].token == Some(token))
    && (forall s: nat, token: nat :: ExpiredUnder(b.history, s, token) ==> !InTable(b.seats, token))
  }

  lemma SoldUnderAppend(history: seq<Outcome>, o: Outcome, s: nat, token: nat)
    ensures SoldUnder(history + [o], s, token) <==> SoldUnder(history, s, token) || o == PaymentTaken(s, token)
  {}

  lemma ExpiredUnderAppend(history: seq<Outcome>, o: Outcome, s: nat, token: nat)
    ensures ExpiredUnder(history + [o], s, token)
      <==> ExpiredUnder(history, s, token) || (o.Expired? && s in o.rows && o.rows[s].token == Some(token))
  {
    var longer := history + [o];
    if ExpiredUnder(history, s, token) {
      var i :| 0 <= i < |history| && history[i].Expired? && s in history[i].rows
        && history[i].rows[s].token == Some(token);
      assert longer[i] == history[i];
    }
    assert longer[|history|] == o;
  }

  lemma ExecKeepsTokens(b: Board, st: Statement)
    requires TokenInv(b) && FreshFor(b, st)
    ensures TokenInv(Exec(b, st))
  {
    var after := Exec(b, st);
    var o := after.history[|b.history|];
    assert after.history == b.history + [o];
    forall s: nat, token: nat
      ensures SoldUnder(after.history, s, token) <==> SoldUnder(b.history, s, token) || o == PaymentTaken(s, token)
    {
      SoldUnderAppend(b.history, o, s, token);
    }
    forall s: nat, token: nat | ExpiredUnder(after.history, s, token) ensures !InTable(after.seats, token) {
      ExpiredUnderAppend(b.history, o, s, token);
    }
  }

  /** Whatever the order of reservations, payments and expirations: no token is both paid for and expired. */
  lemma {:induction false} NeverSoldAndExpired(b: Board, sts: seq<Statement>)
    requires b.history == [] && TokensUnique(b.seats) && FreshTokens(b, sts)
    ensures TokenInv(ExecAll(b, sts))
    ensures forall s: nat, t: nat, token: nat ::
      !(SoldUnder(ExecAll(b, sts).history, s, token) && ExpiredUnder(ExecAll(b, sts).history, t, token))
  {
    if sts != [] {
      var prefix := sts[..|sts| - 1];
      assert forall k {:trigger prefix[k]} :: 0 <= k < |prefix| ==> prefix[..k] == sts[..k] && prefix[k] == sts[k];
      NeverSoldAndExpired(b, prefix);
      ExecKeepsTokens(ExecAll(b, prefix), sts[|sts| - 1]);
    }
  }
}
