/** The order in which a sorted map yields its keys. */
module Ordering {
  import opened Records

  predicate IsLeast(ids: set<Uuid>, x: Uuid) {
    x in ids && forall y | y in ids :: x <= y
  }

  lemma {:induction false} LeastExists(ids: set<Uuid>)
    requires ids != {}
    ensures exists x :: IsLeast(ids, x)
  {
    var any :| any in ids;
    if ids == {any} {
      assert IsLeast(ids, any);
    } else {
      assert ids - {any} != {};
      LeastExists(ids - {any});
      var rest :| IsLeast(ids - {any}, rest);
      var least := if any <= rest then any else rest;
      forall y | y in ids ensures least <= y {
        assert y == any || y in ids - {any};
      }
      assert IsLeast(ids, least);
    }
  }

  function Least(ids: set<Uuid>): (least: Uuid)
    requires ids != {}
    ensures IsLeast(ids, least)
  {
    LeastExists(ids);
    var least :| IsLeast(ids, least);
    least
  }

  /** The elements of a finite set in ascending order. */
  function Ascending(ids: set<Uuid>): (r: seq<Uuid>)
    ensures forall x :: x in r <==> x in ids
    ensures forall i, j | 0 <= i < j < |r| :: r[i] < r[j]
  {
    if ids == {} then []
    else [Least(ids)] + Ascending(ids - {Least(ids)})
  }
}
