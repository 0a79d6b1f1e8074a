/** Sets of ids listed in ascending order, the order every batch takes its locks in. */
module Ids {
  import opened Rows

  lemma {:induction false} HasMax(ids: set<Id>)
    requires ids != {}
    ensures exists m :: m in ids && forall i | i in ids :: i <= m
    decreases ids
  {
    var i: Id :| i in ids;
    var rest := ids - {i};
    assert ids == rest + {i};
    if rest != {} {
      assert rest < ids;
      HasMax(rest);
      var m: Id :| m in rest && forall j | j in rest :: j <= m;
      var top: Id := if m < i then i else m;
      assert top in ids && forall j | j in ids :: j <= top;
    }
  }

  function Max(ids: set<Id>): (m: Id)
    requires ids != {}
    ensures m in ids && forall i | i in ids :: i <= m
  {
    HasMax(ids);
    var m :| m in ids && forall i | i in ids :: i <= m;
    m
  }

  function Ascending(ids: set<Id>): (all: seq<Id>)
    ensures forall i | i in ids :: i in all
    decreases ids
  {
    if ids == {} then []
    else
      var m := Max(ids);
      assert ids - {m} < ids;
      var rest := Ascending(ids - {m});
      assert forall i | i in ids :: i in rest + [m] by {
        forall i | i in ids
          ensures i in rest + [m]
        {
          if i != m { assert i in rest; }
        }
      }
      rest + [m]
  }

  lemma {:induction false} AscendingIncreases(ids: set<Id>)
    ensures forall i | 0 <= i < |Ascending(ids)| :: Ascending(ids)[i] in ids
    ensures forall i, j | 0 <= i < j < |Ascending(ids)| ::
              Ascending(ids)[i] < Ascending(ids)[j]
    decreases ids
  {
    if ids != {} {
      var m := Max(ids);
      assert ids - {m} < ids;
      AscendingIncreases(ids - {m});
      var rest := Ascending(ids - {m});
      forall i | 0 <= i < |rest|
        ensures rest[i] < m
      {
        assert rest[i] in ids - {m};
      }
    }
  }
}
