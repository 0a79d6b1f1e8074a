/** Choosing the agent for a round: deterministic, whatever order the candidates come in. */
module PickAgent {
  import opened Rows

  datatype Candidate = Candidate(id: Id, createdAt: int, clusterSize: nat, openTasks: nat)

  // Lexicographic in cluster size, load, age and id; total, because ids differ.
  predicate Before(a: Candidate, b: Candidate) {
    if a.clusterSize != b.clusterSize then a.clusterSize < b.clusterSize
    else if a.openTasks != b.openTasks then a.openTasks < b.openTasks
    else if a.createdAt != b.createdAt then a.createdAt < b.createdAt
    else a.id <= b.id
  }

  function Insert(c: Candidate, sorted: seq<Candidate>): seq<Candidate> {
    if sorted == [] || Before(c, sorted[0]) then [c] + sorted else [sorted[0]] + Insert(c, sorted[1..])
  }

  function Sorted(candidates: seq<Candidate>): seq<Candidate> {
    if candidates == [] then [] else Insert(candidates[0], Sorted(candidates[1..]))
  }

  predicate Among(candidates: seq<Candidate>, id: Id) {
    exists i | 0 <= i < |candidates| :: candidates[i].id == id
  }

  function Pick(candidates: seq<Candidate>, preferred: Option<Id>): Option<Id> {
    if preferred.Some? && Among(candidates, preferred.value) then preferred
    else
      var sorted := Sorted(candidates);
      if sorted == [] then None else Some(sorted[0].id)
  }

  // ----- What is picked -----

  lemma BeforeOrders(a: Candidate, b: Candidate, c: Candidate)
    ensures Before(a, b) || Before(b, a)
    ensures Before(a, b) && Before(b, c) ==> Before(a, c)
    ensures Before(a, b) && Before(b, a) ==> a.id == b.id
  {
  }

  lemma {:induction false} InsertIs(c: Candidate, sorted: seq<Candidate>)
    ensures multiset(Insert(c, sorted)) == multiset(sorted) + multiset{c}
    ensures sorted != [] && !Before(c, sorted[0]) ==> Insert(c, sorted)[0] == sorted[0]
  {
    if sorted != [] && !Before(c, sorted[0]) {
      InsertIs(c, sorted[1..]);
      assert sorted == [sorted[0]] + sorted[1..];
    }
  }

  predicate Leads(sorted: seq<Candidate>) {
    forall i | 0 <= i < |sorted| :: Before(sorted[0], sorted[i])
  }

  // Sorting keeps the candidates and puts one before all others first.
  lemma {:induction false} SortedIs(candidates: seq<Candidate>)
    ensures multiset(Sorted(candidates)) == multiset(candidates)
    ensures Leads(Sorted(candidates))
  {
    if candidates != [] {
      var c, rest := candidates[0], Sorted(candidates[1..]);
      SortedIs(candidates[1..]);
      InsertIs(c, rest);
      assert candidates == [c] + candidates[1..];
      var all := Insert(c, rest);
      forall i | 0 <= i < |all|
        ensures Before(all[0], all[i])
      {
        assert all[i] in multiset(all);
        if all[i] != c {
          assert all[i] in multiset(rest);
          var j :| 0 <= j < |rest| && rest[j] == all[i];
          BeforeOrders(c, rest[0], rest[j]);
        } else if rest != [] {
          BeforeOrders(c, rest[0], c);
        } else {
          BeforeOrders(c, c, c);
        }
      }
    }
  }

  /** Without a preference among the candidates, the pick comes before every candidate. */
  lemma PicksTheLeast(candidates: seq<Candidate>, preferred: Option<Id>)
    requires preferred.None? || !Among(candidates, preferred.value)
    ensures Pick(candidates, preferred).None? <==> candidates == []
    ensures candidates != [] ==>
              exists c :: c in candidates && Pick(candidates, preferred) == Some(c.id) &&
                          forall d | d in candidates :: Before(c, d)
  {
    SortedIs(candidates);
    var sorted := Sorted(candidates);
    assert |sorted| == |multiset(sorted)| == |multiset(candidates)| == |candidates|;
    if candidates != [] {
      assert sorted[0] in multiset(candidates);
      forall d | d in candidates
        ensures Before(sorted[0], d)
      {
        assert d in multiset(sorted);
        var i :| 0 <= i < |sorted| && sorted[i] == d;
      }
    }
  }

  /** A preferred candidate is picked, and only a candidate ever is. */
  lemma PicksACandidate(candidates: seq<Candidate>, preferred: Option<Id>)
    ensures Pick(candidates, preferred).Some? ==> Among(candidates, Pick(candidates, preferred).value)
    ensures preferred.Some? && Among(candidates, preferred.value) ==> Pick(candidates, preferred) == preferred
    ensures candidates != [] ==> Pick(candidates, preferred).Some?
  {
    if preferred.None? || !Among(candidates, preferred.value) {
      PicksTheLeast(candidates, preferred);
      if c :| c in candidates && Pick(candidates, preferred) == Some(c.id) {
        var i :| 0 <= i < |candidates| && candidates[i] == c;
        assert candidates[i].id == c.id;
      }
    }
  }

  lemma AmongKept(a: seq<Candidate>, b: seq<Candidate>, id: Id)
    requires (forall c :: c in a <==> c in b) && Among(a, id)
    ensures Among(b, id)
  {
    var i :| 0 <= i < |a| && a[i].id == id;
    assert a[i] in b;
    var j :| 0 <= j < |b| && b[j] == a[i];
    assert b[j].id == id;
  }

  /** The same candidates in any order give the same pick. */
  lemma PickIgnoresOrder(a: seq<Candidate>, b: seq<Candidate>, preferred: Option<Id>)
    requires forall c :: c in a <==> c in b
    ensures Pick(a, preferred) == Pick(b, preferred)
  {
    if preferred.Some? && Among(a, preferred.value) {
      AmongKept(a, b, preferred.value);
    } else {
      if preferred.Some? && Among(b, preferred.value) {
        AmongKept(b, a, preferred.value);
      }
      PicksTheLeast(a, preferred);
      PicksTheLeast(b, preferred);
      if a != [] {
        assert a[0] in b;
        var c :| c in a && Pick(a, preferred) == Some(c.id) && forall d | d in a :: Before(c, d);
        var e :| e in b && Pick(b, preferred) == Some(e.id) && forall d | d in b :: Before(e, d);
        BeforeOrders(c, e, c);
      }
    }
  }
}
