/** The four calls on the seats table, each run undisturbed, as methods on an object. */
module SeatTable {
  import opened Wrappers
  import opened Seats
  import SeatReservation

  /** What a statement makes of a table, and what it reports. */
  ghost predicate Performs(before: map<nat, Seat>, st: Statement, after: map<nat, Seat>, outcome: Outcome) {
    Exec(Board(before, []), st) == Board(after, [outcome])
  }

  class Table {
    var clock: int
    var seats: map<nat, Seat>

    /** BEGIN, SELECT ... FOR UPDATE, UPDATE, COMMIT, with ROLLBACK when the seat is missing or not available.
        Undisturbed, it is the conditional reservation. */
    method AttemptRowLockReservation(seat: nat, buyer: string, holdMinutes: int, token: nat) returns (outcome: Outcome)
      modifies this`seats
      ensures Performs(old(seats), Reserve(seat, buyer, token, clock + holdMinutes * SeatReservation.MS_PER_MINUTE),
                       seats, outcome)
      ensures outcome
        == if seat in old(seats) && old(seats)[seat].status == Available then SeatReserved(seat, token)
           else Unavailable(seat)
      ensures seats
        == if outcome.Unavailable? then old(seats)
           else old(seats)[seat := Seat(Reserved, Some(token), Some(buyer), Some(clock + holdMinutes * 60000))]
    {
      var status := if seat in seats then Some(seats[seat].status) else None;
      if status != Some(Available) {
        return Unavailable(seat);
      }
      var until := clock + holdMinutes * SeatReservation.MS_PER_MINUTE;
      seats := seats[seat := seats[seat].(status := Reserved, token := Some(token), reservedBy := Some(buyer),
                                             reservedUntil := Some(until))];
      return SeatReserved(seat, token);
    }

    /** One UPDATE whose WHERE clause holds the check. */
    method AttemptConditionalReservation(seat: nat, buyer: string, holdMinutes: int, token: nat)
      returns (outcome: Outcome)
      modifies this`seats
      ensures Performs(old(seats), Reserve(seat, buyer, token, clock + holdMinutes * SeatReservation.MS_PER_MINUTE),
                       seats, outcome)
      ensures outcome
        == if seat in old(seats) && old(seats)[seat].status == Available then SeatReserved(seat, token)
           else Unavailable(seat)
      ensures seats
        == if outcome.Unavailable? then old(seats)
           else old(seats)[seat := Seat(Reserved, Some(token), Some(buyer), Some(clock + holdMinutes * 60000))]
    {
      var rowCount := 0;
      if IsAvailable(seats, seat) {
        seats := seats[seat := Held(buyer, token, clock + holdMinutes * SeatReservation.MS_PER_MINUTE)];
        rowCount := 1;
      }
      if rowCount == 1 {
        return SeatReserved(seat, token);
      }
      return Unavailable(seat);
    }

    method CompletePayment(seat: nat, token: nat) returns (outcome: Outcome)
      modifies this`seats
      ensures Performs(old(seats), Pay(seat, token, clock), seats, outcome)
      ensures outcome.PaymentTaken? <==>
        && seat in old(seats) && old(seats)[seat].status == Reserved && old(seats)[seat].token == Some(token)
        && old(seats)[seat].reservedUntil.Some? && clock < old(seats)[seat].reservedUntil.value
      ensures outcome.PaymentFailed? ==> seats == old(seats)
    {
      if Payable(seats, seat, token, clock) {
        seats := seats[seat := seats[seat].(status := Sold)];
        return PaymentTaken(seat, token);
      }
      return PaymentFailed(seat);
    }

    /** The bulk UPDATE ... RETURNING id: every lapsed reservation is reverted and its id is returned once. */
    method ExpireReservations() returns (expiredCount: nat, expiredSeatIds: seq<nat>)
      modifies this`seats
      ensures Performs(old(seats), Expire(clock), seats, Expired(LapsedRows(old(seats), clock)))
      ensures expiredCount == |expiredSeatIds|
      ensures forall s :: s in expiredSeatIds <==>
        && s in old(seats) && old(seats)[s].status == Reserved
        && old(seats)[s].reservedUntil.Some? && old(seats)[s].reservedUntil.value < clock
      ensures seats.Keys == old(seats).Keys && forall s :: s in seats ==>
        seats[s] == if s in expiredSeatIds then Seat(Available, None, None, None) else old(seats)[s]
      ensures forall i, j :: 0 <= i < j < |expiredSeatIds| ==> expiredSeatIds[i] != expiredSeatIds[j]
    {
      expiredSeatIds := [];
      var rest := seats.Keys;
      while rest != {}
        invariant rest <= seats.Keys == old(seats).Keys
        invariant forall s :: s in rest ==> seats[s] == old(seats)[s]
        invariant forall s :: s in seats && s !in rest ==>
          seats[s] == if Lapsed(old(seats)[s], clock) then FREE else old(seats)[s]
        invariant forall s :: s in expiredSeatIds <==> s in seats && s !in rest && Lapsed(old(seats)[s], clock)
        invariant forall i, j :: 0 <= i < j < |expiredSeatIds| ==> expiredSeatIds[i] != expiredSeatIds[j]
        decreases rest
      {
        var s :| s in rest;
        rest := rest - {s};
        if Lapsed(seats[s], clock) {
          assert forall i :: 0 <= i < |expiredSeatIds| ==> expiredSeatIds[i] in expiredSeatIds;
          seats := seats[s := FREE];
          expiredSeatIds := expiredSeatIds + [s];
        }
      }
      assert seats == Reverted(old(seats), clock);
      expiredCount := |expiredSeatIds|;
    }
  }
}
