/** Termination measures over the rows of a table. */
module Totals {
  function Total(weights: map<nat, nat>): nat
    decreases |weights|
  {
    if weights == map[] then 0
    else
      var id := Least(weights.Keys);
      weights[id] + Total(weights - {id})
  }

  lemma {:induction false} EachBelowTotal(weights: map<nat, nat>, id: nat)
    requires id in weights
    ensures weights[id] <= Total(weights)
    decreases |weights|
  {
    var least := Least(weights.Keys);
    if id != least {
      assert (weights - {least})[id] == weights[id];
      EachBelowTotal(weights - {least}, id);
    }
  }

  /** How often a row can still be claimed by workers that keep their leases. */
  function ClaimsLeft(terminal: bool, attempts: nat, maxAttempts: nat): nat {
    if terminal then 0 else if maxAttempts > attempts then maxAttempts - attempts else 1
  }

  lemma {:induction false} TotalOfEqual(weights: map<nat, nat>, w: nat)
    requires forall id :: id in weights ==> weights[id] == w
    ensures Total(weights) == w * |weights|
    decreases |weights|
  {
    if weights != map[] {
      var least := Least(weights.Keys);
      var rest := weights - {least};
      TotalOfEqual(rest, w);
      assert rest.Keys == weights.Keys - {least};
      assert w * (|rest| + 1) == w * |rest| + w;
    }
  }

  /** The least element, so that the sum over a table is a function of the table. */
  function Least(ids: set<nat>): (m: nat)
    requires ids != {}
    ensures m in ids && forall i :: i in ids ==> m <= i
  {
    LeastExists(ids);
    var m: nat :| m in ids && forall i :: i in ids ==> m <= i;
    m
  }

  lemma LeastExists(ids: set<nat>)
    requires ids != {}
    ensures exists m: nat :: m in ids && forall i :: i in ids ==> m <= i
  {
    var m := FindLeast(ids);
  }

  lemma {:induction false} FindLeast(ids: set<nat>) returns (m: nat)
    requires ids != {}
    ensures m in ids && forall i :: i in ids ==> m <= i
    decreases ids
  {
    var x: nat :| x in ids;
    var below := set i | i in ids && i < x;
    assert forall i :: i in ids && i < x ==> i in below;
    if below == {} {
      m := x;
    } else {
      m := FindLeast(below);
    }
  }

  /** Changing one weight changes the sum by the difference. */
  lemma {:induction false} TotalUpdate(weights: map<nat, nat>, id: nat, w: nat)
    requires id in weights
    ensures Total(weights[id := w]) == Total(weights) - weights[id] + w
    decreases |weights|
  {
    var after := weights[id := w];
    assert after.Keys == weights.Keys;
    var least := Least(weights.Keys);
    if least == id {
      assert after - {id} == weights - {id};
    } else {
      assert after - {least} == (weights - {least})[id := w];
      TotalUpdate(weights - {least}, id, w);
    }
  }
}
