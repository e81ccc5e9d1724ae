/** How long a reservation holds its seat, in every interleaving, from the arguments of the calls alone. */
module SeatHolds {
  import opened Wrappers
  import opened Seats
  import opened SeatReservation

  /** What a reservation asked for. */
  datatype Request = Request(seat: nat, buyer: string, holdMinutes: int)

  /** A request, and the time at which its token was drawn. */
  datatype Hold = Hold(request: Request, madeAt: int)
  {
    function Deadline(): int {
      madeAt + request.holdMinutes * 60000
    }
  }

  /** What a worker's latest row-lock attempt asked for. */
  function LastRequest(st: State, actions: seq<Action>, w: nat): Option<Request> {
    if actions == [] then None else
      var prefix, a := actions[..|actions| - 1], actions[|actions| - 1];
      if a.Lock? && a.worker == w && Enabled(Run(st, prefix), a) then Some(Request(a.seat, a.buyer, a.holdMinutes))
      else LastRequest(st, prefix, w)
  }

  /** The holds that the run's reservations asked for, by token: each UPDATE draws one. */
  function Holds(st: State, actions: seq<Action>): map<nat, Hold> {
    if actions == [] then map[] else
      var prefix, a := actions[..|actions| - 1], actions[|actions| - 1];
      var before, holds := Run(st, prefix), Holds(st, prefix);
      if !Enabled(before, a) then holds
      else match a
        case Conditional(s, buyer, minutes) =>
          holds[before.nextToken := Hold(Request(s, buyer, minutes), before.clock)]
        case Write(w) =>
          if LastRequest(st, prefix, w).None? then holds
          else holds[before.nextToken := Hold(LastRequest(st, prefix, w).value, before.clock)]
        case _ => holds
  }

  // ---- What ties the table to the holds ----

  /** The row of a seat that was reserved under `token`: sold, expired and gone, or still reserved. */
  ghost predicate RowFollows(e: State, s: nat, token: nat, hold: Hold) {
    && hold.request.seat == s && s in e.board.seats
    && var row := Seat(Reserved, Some(token), Some(hold.request.buyer), Some(hold.Deadline()));
      if SoldUnder(e.board.history, s, token) then e.board.seats[s] == row.(status := Sold)
      else if ExpiredUnder(e.board.history, s, token) then hold.Deadline() < e.clock
      else e.board.seats[s] == row
  }

  ghost predicate ReservedFollow(e: State, holds: map<nat, Hold>) {
    forall s: nat, token: nat :: SeatReserved(s, token) in e.board.history ==>
      token in holds && RowFollows(e, s, token, holds[token])
  }

  /** A row under a token of the run was reported as reserved. */
  ghost predicate RowsReported(e: State, holds: map<nat, Hold>) {
    forall s :: s in e.board.seats && e.board.seats[s].token.Some? && e.board.seats[s].token.value in holds ==>
      SeatReserved(s, e.board.seats[s].token.value) in e.board.history
  }

  predicate WorkerFollows(tx: Tx, request: Option<Request>, holds: map<nat, Hold>) {
    match tx
    case Idle => true
    case Locked(s, buyer, minutes) => request == Some(Request(s, buyer, minutes))
    case HasRead(s, buyer, minutes, _) => request == Some(Request(s, buyer, minutes))
    case Written(s, buyer, token, until) =>
      && token in holds && holds[token].request.seat == s && holds[token].request.buyer == buyer
      && until == holds[token].Deadline()
  }

  ghost predicate Unreported(history: seq<Outcome>, token: nat) {
    forall s: nat :: SeatReserved(s, token) !in history
  }

  ghost predicate WorkersFollow(st: State, actions: seq<Action>) {
    var e := Run(st, actions);
    forall w: nat :: w < |e.workers| ==>
      && WorkerFollows(e.workers[w], LastRequest(st, actions, w), Holds(st, actions))
      && (e.workers[w].Written? ==> Unreported(e.board.history, e.workers[w].token))
  }

  ghost predicate TokensInOrder(st: State, e: State, holds: map<nat, Hold>) {
    && st.nextToken <= e.nextToken
    && forall token :: token in holds ==> st.nextToken <= token < e.nextToken
  }

  ghost predicate Follows(st: State, actions: seq<Action>) {
    var e, holds := Run(st, actions), Holds(st, actions);
    && TokensInOrder(st, e, holds) && ReservedFollow(e, holds) && RowsReported(e, holds) && WorkersFollow(st, actions)
  }

  lemma NothingYet(st: State)
    requires Fresh(st)
    ensures Follows(st, [])
  {
  }

  lemma HoldsGrow(st: State, actions: seq<Action>)
    requires actions != [] && Follows(st, actions[..|actions| - 1])
    ensures TokensInOrder(st, Run(st, actions), Holds(st, actions))
    ensures forall token :: token in Holds(st, actions[..|actions| - 1]) ==>
      token in Holds(st, actions) && Holds(st, actions)[token] == Holds(st, actions[..|actions| - 1])[token]
    ensures forall token :: token in Holds(st, actions) && token !in Holds(st, actions[..|actions| - 1]) ==>
      token == Run(st, actions[..|actions| - 1]).nextToken
  {
  }

  // ---- One statement ----

  /** A reservation that succeeds does so under a token of the run that nobody has used, for what was asked. */
  ghost predicate AsAsked(e: State, holds: map<nat, Hold>, sm: Statement) {
    match sm
    case Reserve(s, buyer, token, until) =>
      IsAvailable(e.board.seats, s) ==>
        && token in holds && holds[token].request.seat == s && holds[token].request.buyer == buyer
        && until == holds[token].Deadline() && Unreported(e.board.history, token) && !Used(e.board, token)
    case Pay(_, _, now) => now == e.clock
    case Expire(now) => now == e.clock
  }

  ghost predicate BoardFollows(e: State, holds: map<nat, Hold>) {
    ReservedFollow(e, holds) && RowsReported(e, holds)
  }

  /** What an outcome adds to what was sold and expired. */
  lemma OutcomeTold(b: Board, sm: Statement)
    ensures var after := Exec(b, sm);
      && |after.history| == |b.history| + 1
      && var o := after.history[|b.history|];
        && after.history == b.history + [o]
        && (forall s: nat, token: nat {:trigger SoldUnder(after.history, s, token)} ::
              SoldUnder(after.history, s, token) <==> SoldUnder(b.history, s, token) || o == PaymentTaken(s, token))
        && (forall s: nat, token: nat {:trigger ExpiredUnder(after.history, s, token)} ::
              ExpiredUnder(after.history, s, token) <==>
                ExpiredUnder(b.history, s, token) || (o.Expired? && s in o.rows && o.rows[s].token == Some(token)))
        && (forall s: nat, token: nat :: SeatReserved(s, token) in after.history <==>
              SeatReserved(s, token) in b.history || o == SeatReserved(s, token))
  {
    var after := Exec(b, sm);
    var o := after.history[|b.history|];
    assert after.history == b.history + [o];
    hide Exec;
    forall s: nat, token: nat
      ensures SoldUnder(after.history, s, token) <==> SoldUnder(b.history, s, token) || o == PaymentTaken(s, token)
      ensures ExpiredUnder(after.history, s, token) <==>
        ExpiredUnder(b.history, s, token) || (o.Expired? && s in o.rows && o.rows[s].token == Some(token))
    {
      SoldUnderAppend(b.history, o, s, token);
      ExpiredUnderAppend(b.history, o, s, token);
    }
  }

  lemma ExecKeepsFollowing(e: State, holds: map<nat, Hold>, sm: Statement, next: State)
    requires TokenInv(e.board) && BoardFollows(e, holds) && AsAsked(e, holds, sm)
    requires next.board == Exec(e.board, sm) && next.clock == e.clock
    ensures BoardFollows(next, holds)
  {
    OutcomeTold(e.board, sm);
    hide SoldUnder, ExpiredUnder;
    match sm
    case Reserve(s, buyer, token, until) =>
      assert Used(e.board, token) || !(SoldUnder(e.board.history, s, token) || ExpiredUnder(e.board.history, s, token));
    case Pay(_, _, _) =>
    case Expire(_) =>
  }

  lemma LaterFollows(e: State, holds: map<nat, Hold>, more: map<nat, Hold>, next: State)
    requires BoardFollows(e, holds) && next.board == e.board && e.clock <= next.clock
    requires forall token :: token in holds ==> token in more && more[token] == holds[token]
    requires forall token :: token in more && token !in holds ==> !Used(e.board, token)
    ensures BoardFollows(next, more)
  {
    assert forall s :: s in e.board.seats && e.board.seats[s].token.Some? ==>
        Used(e.board, e.board.seats[s].token.value);
  }

  // ---- One step ----

  lemma StepKeepsBoard(st: State, actions: seq<Action>)
    requires actions != [] && Follows(st, actions[..|actions| - 1])
    requires TokenInv(Run(st, actions[..|actions| - 1]).board) && TokensBelow(Run(st, actions[..|actions| - 1]))
    requires LockInv(Run(st, actions[..|actions| - 1]))
    ensures BoardFollows(Run(st, actions), Holds(st, actions))
  {
    var prefix, a := actions[..|actions| - 1], actions[|actions| - 1];
    var e, holds, next := Run(st, prefix), Holds(st, actions), Run(st, actions);
    HoldsGrow(st, actions);
    StepRefines(e, a);
    StepTime(e, a);
    NewHoldsUnused(st, actions);
    var sts := StatementsOf(e, a);
    assert next == Apply(e, a);
    assert sts != [] ==> sts[..0] == [] && ExecAll(e.board, sts) == Exec(e.board, sts[0]);
    LaterFollows(e, Holds(st, prefix), holds, e);
    if sts == [] {
      hide Apply, Exec, StatementsOf, Holds, LockInv, TokensBelow, TokenInv, Used, BoardFollows;
      LaterFollows(e, holds, holds, next);
    } else {
      StatementAsAsked(st, actions);
      hide Apply, Exec, StatementsOf, Holds, LockInv, TokensBelow, TokenInv, Used, BoardFollows;
      ExecKeepsFollowing(e, holds, sts[0], next);
    }
  }

  lemma StepTime(e: State, a: Action)
    ensures e.clock <= Apply(e, a).clock
    ensures StatementsOf(e, a) != [] ==> Apply(e, a).clock == e.clock
  {
  }

  lemma NewHoldsUnused(st: State, actions: seq<Action>)
    requires actions != [] && Follows(st, actions[..|actions| - 1]) && TokensBelow(Run(st, actions[..|actions| - 1]))
    ensures forall token :: token in Holds(st, actions) && token !in Holds(st, actions[..|actions| - 1]) ==>
      !Used(Run(st, actions[..|actions| - 1]).board, token)
  {
    HoldsGrow(st, actions);
    hide Used;
  }

  lemma StatementAsAsked(st: State, actions: seq<Action>)
    requires actions != [] && Follows(st, actions[..|actions| - 1])
    requires TokensBelow(Run(st, actions[..|actions| - 1])) && LockInv(Run(st, actions[..|actions| - 1]))
    requires StatementsOf(Run(st, actions[..|actions| - 1]), actions[|actions| - 1]) != []
    ensures var e := Run(st, actions[..|actions| - 1]);
      AsAsked(e, Holds(st, actions), StatementsOf(e, actions[|actions| - 1])[0])
  {
    hide Used, Exec, LockHeld, RowFollows, RowsReported, Apply;
    HoldsGrow(st, actions);
  }

  lemma StepKeepsWorkers(st: State, actions: seq<Action>)
    requires actions != [] && Follows(st, actions[..|actions| - 1])
    requires TokensBelow(Run(st, actions[..|actions| - 1]))
    ensures WorkersFollow(st, actions)
  {
    HoldsGrow(st, actions);
  }

  lemma {:induction false} RunFollows(st: State, actions: seq<Action>)
    requires Fresh(st)
    ensures Follows(st, actions) && TokenInv(Run(st, actions).board)
  {
    RunRefines(st, actions);
    NeverSoldAndExpired(st.board, Trace(st, actions));
    if actions == [] {
      NothingYet(st);
    } else {
      var prefix := actions[..|actions| - 1];
      RunFollows(st, prefix);
      RunRefines(st, prefix);
      HoldsGrow(st, actions);
      StepKeepsBoard(st, actions);
      StepKeepsWorkers(st, actions);
    }
    hide *;
  }

  // ---- What a caller sees ----

  /** In every interleaving, the row of a seat reported as reserved carries the request: it is held under the token,
      for the buyer, until the time the token was drawn plus the minutes asked for; paid for, it is the same row sold;
      and only past that time can it have been reverted. */
  lemma ReservationTold(st: State, actions: seq<Action>, s: nat, token: nat)
    requires Fresh(st) && SeatReserved(s, token) in Run(st, actions).board.history
    ensures token in Holds(st, actions) && Holds(st, actions)[token].request.seat == s
    ensures var e, hold := Run(st, actions), Holds(st, actions)[token];
      var until := hold.madeAt + hold.request.holdMinutes * 60000;
      && s in e.board.seats
      && (SoldUnder(e.board.history, s, token) ==>
            e.board.seats[s] == Seat(Sold, Some(token), Some(hold.request.buyer), Some(until)))
      && (ExpiredUnder(e.board.history, s, token) ==> until < e.clock)
      && (!SoldUnder(e.board.history, s, token) && !ExpiredUnder(e.board.history, s, token) ==>
            e.board.seats[s] == Seat(Reserved, Some(token), Some(hold.request.buyer), Some(until)))
  {
    hide Run, Holds, SoldUnder, ExpiredUnder, RowsReported, WorkersFollow, TokensUnique, TokensInOrder;
    var e := Run(st, actions);
    RunFollows(st, actions);
    assert RowFollows(e, s, token, Holds(st, actions)[token]);
    assert SoldUnder(e.board.history, s, token) ==> InTable(e.board.seats, token);
  }

  /** In every interleaving, a payment is taken exactly for a seat that was reported as reserved under this token, not
      paid for before, and strictly before the time the token was drawn plus the minutes asked for. */
  lemma PaymentTakenIff(st: State, actions: seq<Action>, s: nat, token: nat)
    requires Fresh(st) && token in Holds(st, actions) && Enabled(Run(st, actions), Payment(s, token))
    ensures var e, hold := Run(st, actions), Holds(st, actions)[token];
      Apply(e, Payment(s, token)).board.history == e.board.history +
        if SeatReserved(s, token) in e.board.history && !SoldUnder(e.board.history, s, token)
          && e.clock < hold.madeAt + hold.request.holdMinutes * 60000
        then [PaymentTaken(s, token)] else [PaymentFailed(s)]
  {
    var e, hold := Run(st, actions), Holds(st, actions)[token];
    RunFollows(st, actions);
    if SeatReserved(s, token) in e.board.history {
      ReservationTold(st, actions, s, token);
    } else {
      assert RowsReported(e, Holds(st, actions));
    }
  }

  /** In every interleaving, the expiry worker reverts a seat reported as reserved exactly if it was neither paid for
      nor reverted before, and strictly past the time the token was drawn plus the minutes asked for; the seat is free
      again afterwards. */
  lemma ExpiryIff(st: State, actions: seq<Action>, s: nat, token: nat)
    requires Fresh(st) && Enabled(Run(st, actions), Expiry)
    requires SeatReserved(s, token) in Run(st, actions).board.history && token in Holds(st, actions)
    ensures var e, hold := Run(st, actions), Holds(st, actions)[token];
      var next := Apply(e, Expiry).board;
      && |next.history| == |e.board.history| + 1
      && next.history[|e.board.history|].Expired?
      && var rows := next.history[|e.board.history|].rows;
        && (s in rows && rows[s].token == Some(token) <==>
              && !SoldUnder(e.board.history, s, token) && !ExpiredUnder(e.board.history, s, token)
              && hold.madeAt + hold.request.holdMinutes * 60000 < e.clock)
        && (s in rows ==> s in next.seats && next.seats[s] == Seat(Available, None, None, None))
  {
    var e := Run(st, actions);
    RunFollows(st, actions);
    ReservationTold(st, actions, s, token);
    if ExpiredUnder(e.board.history, s, token) {
      assert !InTable(e.board.seats, token);
    }
  }

  // ---- Holds from before the run ----

  /** A seat that was reserved at the start keeps its row until it is paid for or, past its time, reverted. */
  ghost predicate OldRowFollows(start: Board, e: State, s: nat, token: nat)
    requires s in start.seats
  {
    && s in e.board.seats
    && if SoldUnder(e.board.history, s, token) then e.board.seats[s] == start.seats[s].(status := Sold)
       else if ExpiredUnder(e.board.history, s, token) then
         start.seats[s].reservedUntil.Some? && start.seats[s].reservedUntil.value < e.clock
       else e.board.seats[s] == start.seats[s]
  }

  predicate ReservedUnder(seats: map<nat, Seat>, s: nat, token: nat) {
    s in seats && seats[s].status == Reserved && seats[s].token == Some(token)
  }

  /** Every token a statement brings in is drawn in the run. */
  ghost predicate OldFollow(st: State, e: State) {
    && (forall s: nat, token: nat :: ReservedUnder(st.board.seats, s, token) ==> OldRowFollows(st.board, e, s, token))
    && (forall s: nat, token: nat :: ReservedUnder(e.board.seats, s, token) && token < st.nextToken ==>
          ReservedUnder(st.board.seats, s, token))
  }

  lemma ExecKeepsOld(st: State, e: State, sm: Statement, next: State)
    requires OldFollow(st, e) && TokenInv(e.board)
    requires next.board == Exec(e.board, sm) && next.clock == e.clock
    requires match sm
      case Reserve(_, _, token, _) => st.nextToken <= token
      case Pay(_, _, now) => now == e.clock
      case Expire(now) => now == e.clock
    requires forall s: nat, token: nat :: ReservedUnder(st.board.seats, s, token) ==> token < st.nextToken
    ensures OldFollow(st, next)
  {
    OutcomeTold(e.board, sm);
    hide SoldUnder, ExpiredUnder;
  }

  lemma SameBoardFollows(st: State, e: State, next: State)
    requires OldFollow(st, e) && next.board == e.board && e.clock <= next.clock
    ensures OldFollow(st, next)
  {
    hide SoldUnder, ExpiredUnder;
  }

  lemma StatementDrawn(st: State, actions: seq<Action>, a: Action)
    requires Follows(st, actions)
    ensures var e := Run(st, actions);
      StatementsOf(e, a) != [] ==>
        match StatementsOf(e, a)[0]
        case Reserve(_, _, token, _) => st.nextToken <= token
        case Pay(_, _, now) => now == e.clock
        case Expire(now) => now == e.clock
  {
  }

  /** One step, as the at most one statement it amounts to. */
  lemma StepAsStatement(e: State, a: Action)
    requires LockInv(e)
    ensures var sts := StatementsOf(e, a);
      if sts == [] then Apply(e, a).board == e.board && e.clock <= Apply(e, a).clock
      else Apply(e, a).board == Exec(e.board, sts[0]) && Apply(e, a).clock == e.clock
  {
    StepRefines(e, a);
    StepTime(e, a);
    var sts := StatementsOf(e, a);
    hide StatementsOf, Apply, Exec, LockInv;
    assert sts != [] ==> sts[..0] == [] && ExecAll(e.board, sts) == Exec(e.board, sts[0]);
  }

  lemma InitialTokens(st: State)
    requires Fresh(st)
    ensures forall s: nat, token: nat :: ReservedUnder(st.board.seats, s, token) ==> token < st.nextToken
  {
    forall s: nat, token: nat | ReservedUnder(st.board.seats, s, token) ensures token < st.nextToken {
      assert Used(st.board, token);
    }
  }

  lemma StepKeepsOld(st: State, prefix: seq<Action>, a: Action)
    requires Fresh(st) && OldFollow(st, Run(st, prefix)) && Follows(st, prefix)
    requires LockInv(Run(st, prefix)) && TokenInv(Run(st, prefix).board)
    ensures OldFollow(st, Apply(Run(st, prefix), a))
  {
    var e := Run(st, prefix);
    InitialTokens(st);
    StatementDrawn(st, prefix, a);
    StepAsStatement(e, a);
    hide StatementsOf, Apply, Follows, LockInv, OldFollow, TokenInv, Exec, Fresh, Run, ReservedUnder;
    if StatementsOf(e, a) == [] {
      SameBoardFollows(st, e, Apply(e, a));
    } else {
      ExecKeepsOld(st, e, StatementsOf(e, a)[0], Apply(e, a));
    }
  }

  lemma {:induction false} RunKeepsOld(st: State, actions: seq<Action>)
    requires Fresh(st)
    ensures OldFollow(st, Run(st, actions))
  {
    if actions != [] {
      var prefix := actions[..|actions| - 1];
      RunKeepsOld(st, prefix);
      RunFollows(st, prefix);
      RunRefines(st, prefix);
      StepKeepsOld(st, prefix, actions[|actions| - 1]);
    }
    hide Apply, Follows, LockInv, TokensBelow, TokenInv;
  }

  /** The same for a token that was not drawn in the run: the payment is taken exactly if the seat was reserved under it
      at the start, has not been paid for, and its time is not over. */
  lemma EarlierPaymentTakenIff(st: State, actions: seq<Action>, s: nat, token: nat)
    requires Fresh(st) && token < st.nextToken && Enabled(Run(st, actions), Payment(s, token))
    ensures var e := Run(st, actions);
      Apply(e, Payment(s, token)).board.history == e.board.history +
        if ReservedUnder(st.board.seats, s, token) && !SoldUnder(e.board.history, s, token)
          && st.board.seats[s].reservedUntil.Some? && e.clock < st.board.seats[s].reservedUntil.value
        then [PaymentTaken(s, token)] else [PaymentFailed(s)]
  {
    RunKeepsOld(st, actions);
    RunFollows(st, actions);
    var e := Run(st, actions);
    if ReservedUnder(st.board.seats, s, token) {
      assert OldRowFollows(st.board, e, s, token);
    } else {
      assert !ReservedUnder(e.board.seats, s, token);
    }
  }

  // ---- An attempt left alone ----

  /** Lock, read, write and commit without anybody in between reserve an available seat for the minutes asked for; lock,
      read and give up report any other as unavailable. */
  lemma AttemptAlone(st: State, w: nat, s: nat, buyer: string, minutes: int)
    requires w < |st.workers| && st.workers[w] == Idle && !LockHeld(st, s)
    ensures var read := Apply(Apply(st, Lock(w, s, buyer, minutes)), Read(w));
      if s in st.board.seats && st.board.seats[s].status == Available then
        var row := Seat(Reserved, Some(st.nextToken), Some(buyer), Some(st.clock + minutes * 60000));
        Apply(Apply(read, Write(w)), Commit(w)).board
          == Board(st.board.seats[s := row], st.board.history + [SeatReserved(s, st.nextToken)])
      else
        Apply(read, GiveUp(w)).board == Board(st.board.seats, st.board.history + [Unavailable(s)])
  {
  }
}
