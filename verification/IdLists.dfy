/** How often an id stands in a list of ids. */
module IdLists {
  function Occurrences(ids: seq<nat>, id: nat): nat {
    if ids == [] then 0 else Occurrences(ids[..|ids| - 1], id) + if ids[|ids| - 1] == id then 1 else 0
  }

  lemma OccurrencesAppend(ids: seq<nat>, x: nat)
    ensures forall e :: Occurrences(ids + [x], e) == Occurrences(ids, e) + if e == x then 1 else 0
  {
    assert (ids + [x])[..|ids|] == ids;
  }

  lemma {:induction false} OccursIffIn(ids: seq<nat>, id: nat)
    ensures Occurrences(ids, id) > 0 <==> id in ids
  {
    if ids != [] {
      OccursIffIn(ids[..|ids| - 1], id);
      assert ids == ids[..|ids| - 1] + [ids[|ids| - 1]];
    }
  }
}
