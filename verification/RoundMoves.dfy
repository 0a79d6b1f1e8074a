/**
 * What every event leaves of a farm, a round and the declines, by what can be seen before it, and whom a
 * round may be given to.
 */
module RoundMoves {
  import opened Rows
  import opened Ids
  import opened PickAgent
  import opened Rounds
  import opened RoundProofs
  import Comeback

  // ----- Farms -----

  /** The agent decides on the round now: it is that agent's, and not decided yet. */
  predicate Decides(s: Desk, r: Id, a: Id) {
    && r in s.rounds && s.rounds[r].agent == Some(a)
    && (s.rounds[r].status.Assigned? || s.rounds[r].status.InProgress?)
  }

  /** The LGA an edit of the farm asks for, if the session read the farm. */
  predicate Edits(s: Desk, e: Event, f: Id) {
    e.Edit? && e.session in s.farmReads && s.farmReads[e.session].id == f
  }

  function NewLga(s: Desk, e: Event): Id
    requires e.Edit? && e.session in s.farmReads
  {
    if e.newLga.Some? then e.newLga.value else s.farmReads[e.session].row.lga
  }

  /** Where an event leaves a farm. */
  function FarmAfter(s: Desk, e: Event, f: Id): Farm
    requires f in s.farms
  {
    var was := s.farms[f];
    match e
    case Edit(_, _, _) =>
      if !Edits(s, e, f) then was
      else if !Reopens(s, e, f) then was.(lga := NewLga(s, e))
      else if HasOpen(s, f) then was
      else was.(lga := NewLga(s, e), status := FarmStatus.Pending, cluster := None)
    case Approved(r, a, complete) =>
      if complete && Decides(s, r, a) && s.rounds[r].farm == f then was.(status := FarmStatus.Verified, cluster := Some(a))
      else was
    case Rejected(r, a) =>
      if Decides(s, r, a) && s.rounds[r].farm == f then was.(status := FarmStatus.Rejected, cluster := None) else was
    case Suspended(owner) => if was.owner == owner then was.(status := FarmStatus.Suspended) else was
    case _ => was
  }

  lemma EditedFarm(s: Desk, e: Event, f: Id)
    requires e.Edit? && f in s.farms
    ensures var t := After(s, e); f in t.farms && t.farms[f] == FarmAfter(s, e, f)
  {
    hide OpenRound, StartOver, HasOpen, LastAgent;
    if e.session in s.farmReads {
      var Read(g, seen) := s.farmReads[e.session];
      if g in s.farms {
        var to := if e.newLga.Some? then e.newLga.value else seen.lga;
        var pending := s.(farms := s.farms[g := s.farms[g].(lga := to, status := FarmStatus.Pending, cluster := None)]);
        var moved := s.(farms := s.farms[g := s.farms[g].(lga := to)]);
        var preferred := if to != seen.lga then None else LastAgent(s, g);
        OpenRoundFarms(pending, g, preferred);
        OpenOnlyIfNone(pending, g, preferred);
        SameRounds(s, pending, g);
        SameRounds(s, moved, g);
        if HasOpen(moved, g) {
          StartOverFarms(moved, g);
        }
      }
    }
  }

  lemma InsertedFarm(s: Desk, owner: Id, lga: Id, preferred: Option<Id>, f: Id)
    requires f in s.farms && f < s.next
    ensures var t := After(s, Insert(owner, lga, preferred)); f in t.farms && t.farms[f] == s.farms[f]
  {
    hide OpenRound;
    OpenRoundFarms(s.(farms := s.farms[s.next := Farm(owner, lga, FarmStatus.Pending, None)], next := s.next + 1), s.next,
                   preferred);
  }

  /**
   * A farm is verified, and joins the deciding agent's cluster, exactly when the agent holding its round approves
   * it with its checklist complete; it is rejected exactly when that agent rejects it; it goes back to waiting
   * exactly when an edit that read it rejected, or verified and moves it, finds no round open; and it is suspended
   * exactly with its owner. Its LGA changes only by an edit, and nothing else about it ever does.
   */
  lemma FarmMoves(s: Desk, e: Event, f: Id)
    requires Valid(s) && f in s.farms
    ensures var t := After(s, e); f in t.farms && t.farms[f] == FarmAfter(s, e, f)
  {
    hide Valid, UpdateFarm, InsertFarm, Assign, HasOpen;
    match e
    case Insert(owner, lga, preferred) =>
      FarmIsOld(s, f);
      InsertedFarm(s, owner, lga, preferred, f);
    case Edit(_, _, _) => EditedFarm(s, e, f);
    case Declined(r, a) =>
      if HeldBy(s, r, a) {
        AssignFarms(Reset(s, r).(declines := s.declines + {(r, a)}), r, None);
      }
    case RetryJob(waiting) => AssignAllFarms(s, waiting);
    case _ =>
  }

  // ----- Who may be given a round -----

  predicate Covers(s: Desk, a: Id, lga: Id) {
    a in s.agents && s.agents[a].verified && s.agents[a].lga == lga
  }

  /** A verified agent of the farm's LGA who has not declined the round. */
  predicate Suits(s: Desk, a: Id, r: Id)
    requires r in s.rounds
  {
    s.rounds[r].farm in s.farms && Covers(s, a, s.farms[s.rounds[r].farm].lga) && (r, a) !in s.declines
  }

  lemma SuitsIsEligible(s: Desk, a: Id, r: Id)
    requires r in s.rounds
    ensures Suits(s, a, r) <==> a in Eligible(s, r)
  {
  }

  function ClusterOf(s: Desk, a: Id): set<Id> {
    set f | f in s.farms && s.farms[f].cluster == Some(a)
  }

  function InHandOf(s: Desk, a: Id): set<Id> {
    set r | r in s.rounds && s.rounds[r].agent == Some(a) && (s.rounds[r].status.Assigned? || s.rounds[r].status.InProgress?)
  }

  /** `a` comes before `b`: a smaller cluster, or as large a one and fewer rounds in hand, or else registered earlier. */
  predicate Ahead(s: Desk, a: Id, b: Id)
    requires a in s.agents && b in s.agents
  {
    var ca, cb, ra, rb := |ClusterOf(s, a)|, |ClusterOf(s, b)|, |InHandOf(s, a)|, |InHandOf(s, b)|;
    || ca < cb
    || (ca == cb && ra < rb)
    || (ca == cb && ra == rb && s.agents[a].createdAt < s.agents[b].createdAt)
    || (ca == cb && ra == rb && s.agents[a].createdAt == s.agents[b].createdAt && a <= b)
  }

  lemma CandidateIs(s: Desk, a: Id)
    requires a in s.agents
    ensures CandidateOf(s, a) == Candidate(a, s.agents[a].createdAt, |ClusterOf(s, a)|, |InHandOf(s, a)|)
  {
    assert ClusterOf(s, a) == set f | f in s.farms && s.farms[f].cluster == Some(a);
    assert InHandOf(s, a) == set r | r in s.rounds && s.rounds[r].agent == Some(a) && s.rounds[r].Held();
  }

  lemma AheadIsBefore(s: Desk, a: Id, b: Id)
    requires a in s.agents && b in s.agents
    ensures Ahead(s, a, b) <==> Before(CandidateOf(s, a), CandidateOf(s, b))
  {
    hide ClusterOf, InHandOf;
    CandidateIs(s, a);
    CandidateIs(s, b);
  }

  lemma FirstOf(s: Desk, ids: seq<Id>, j: nat)
    requires (forall a | a in ids :: a in s.agents) && j < |ids|
    ensures var picked := Pick(CandidatesFrom(s, ids), None);
            picked.Some? && picked.value in ids && Before(CandidateOf(s, picked.value), CandidateOf(s, ids[j]))
  {
    hide Pick, Before, CandidateOf;
    var all := CandidatesFrom(s, ids);
    assert all[j] in all;
    PicksTheLeast(all, None);
    var c :| c in all && Pick(all, None) == Some(c.id) && forall d | d in all :: Before(c, d);
    var i :| 0 <= i < |all| && all[i] == c;
    IdOf(s, ids[i]);
  }

  /** Without a preference, a round goes to the suitable agent who comes before every other one. */
  lemma GoesToTheFirst(s: Desk, r: Id, b: Id)
    requires r in s.rounds && Chosen(s, r, None).Some? && Suits(s, b, r)
    ensures Suits(s, Chosen(s, r, None).value, r) && Ahead(s, Chosen(s, r, None).value, b)
  {
    hide Pick, Eligible, Ahead, Before, CandidateOf, Suits;
    var a := Chosen(s, r, None).value;
    ChosenIsEligible(s, r, None);
    SuitsIsEligible(s, a, r);
    SuitsIsEligible(s, b, r);
    EligibleAgents(s, r);
    AscendingIncreases(Eligible(s, r));
    var ids := Ascending(Eligible(s, r));
    var j: nat :| j < |ids| && ids[j] == b;
    FirstOf(s, ids, j);
    AheadIsBefore(s, a, b);
  }

  lemma IdOf(s: Desk, a: Id)
    requires a in s.agents
    ensures CandidateOf(s, a).id == a
  {
  }

  // ----- Rounds -----

  /** The round is open and with a suitable agent, or waiting because there is none. */
  predicate Placed(s: Desk, r: Id)
    requires r in s.rounds
  {
    var row := s.rounds[r];
    || (row.status.Assigned? && row.agent.Some? && Suits(s, row.agent.value, r))
    || (row.status.Unassigned? && row.agent.None? && forall a | a in s.agents :: !Suits(s, a, r))
  }

  /** The agent holding the round declines it. */
  predicate HandsBack(s: Desk, e: Event, r: Id) {
    e.Declined? && e.round == r && Decides(s, r, e.agent)
  }

  /** An edit moves the round's farm to another LGA while the round is open, and does not reopen the farm. */
  predicate MovesAway(s: Desk, e: Event, r: Id)
    requires r in s.rounds
  {
    && s.rounds[r].farm in s.farms && Edits(s, e, s.rounds[r].farm) && !Reopens(s, e, s.rounds[r].farm)
    && NewLga(s, e) != s.farmReads[e.session].row.lga && s.rounds[r].Open()
  }

  // Where an event that decides a round, or records progress on it, leaves it.
  function RoundAfter(s: Desk, e: Event, r: Id): Round
    requires r in s.rounds
  {
    var was := s.rounds[r];
    match e
    case Recorded(q, a) => if q == r && Decides(s, r, a) then was.(status := InProgress) else was
    case Approved(q, a, complete) =>
      if q == r && complete && Decides(s, r, a) then was.(status := RoundStatus.Approved) else was
    case Rejected(q, a) => if q == r && Decides(s, r, a) then was.(status := RoundStatus.Rejected) else was
    case _ => was
  }

  // After it is assigned, a round that was waiting is placed; no other round is touched.
  lemma AssignPlaces(s: Desk, q: Id, preferred: Option<Id>, r: Id)
    requires r in s.rounds && (s.rounds[r].status.Unassigned? ==> s.rounds[r].agent.None?)
    ensures var t := Assign(s, q, preferred);
            && r in t.rounds && t.rounds[r].farm == s.rounds[r].farm
            && (q == r && s.rounds[r].status.Unassigned? ==> Placed(t, r))
            && (q != r || !s.rounds[r].status.Unassigned? ==> t.rounds[r] == s.rounds[r])
  {
    hide Assign, Suits;
    var t := Assign(s, q, preferred);
    AssignHands(s, q, preferred);
    forall a: Id
      ensures Suits(t, a, r) <==> a in Eligible(s, r)
    {
      SuitsIsEligible(t, a, r);
      SameSuits(s, t, a, r);
      SuitsIsEligible(s, a, r);
    }
  }

  lemma SameSuits(s: Desk, t: Desk, a: Id, r: Id)
    requires r in s.rounds && r in t.rounds && t.rounds[r].farm == s.rounds[r].farm && t == s.(rounds := t.rounds)
    ensures Suits(t, a, r) <==> Suits(s, a, r)
  {
  }

  lemma WaitingHasNone(s: Desk, r: Id)
    requires Valid(s) && r in s.rounds
    ensures s.rounds[r].status.Unassigned? <==> s.rounds[r].agent.None?
    ensures r < s.next && s.rounds[r].farm in s.farms
  {
    assert RoundFits(s, r, s.rounds[r]);
  }

  lemma DeclinedRound(s: Desk, q: Id, a: Id, r: Id)
    requires Valid(s) && r in s.rounds && HeldBy(s, q, a)
    ensures var t := After(s, Declined(q, a));
            && r in t.rounds && t.rounds[r].farm == s.rounds[r].farm && t.declines == s.declines + {(q, a)}
            && (if q == r then Placed(t, r) else t.rounds[r] == s.rounds[r])
  {
    hide Valid, Assign, Placed;
    WaitingHasNone(s, r);
    var u := Reset(s, q).(declines := s.declines + {(q, a)});
    AssignPlaces(u, q, None, r);
    AssignHands(u, q, None);
  }

  lemma {:induction false} RetriedRound(s: Desk, waiting: seq<Id>, r: Id)
    requires Valid(s) && r in s.rounds
    ensures var t := AssignAll(s, waiting);
            && r in t.rounds && t.rounds[r].farm == s.rounds[r].farm && t == s.(rounds := t.rounds)
            && (r in waiting && s.rounds[r].status.Unassigned? ==> Placed(t, r))
            && (r !in waiting || !s.rounds[r].status.Unassigned? ==> t.rounds[r] == s.rounds[r])
  {
    hide Valid, Assign, Placed;
    if waiting != [] {
      var n := |waiting| - 1;
      var before := AssignAll(s, waiting[..n]);
      RetriedRound(s, waiting[..n], r);
      AssignAllKeeps(s, waiting[..n]);
      WaitingHasNone(before, r);
      AssignPlaces(before, waiting[n], None, r);
      AssignHands(before, waiting[n], None);
      if waiting[n] != r || !before.rounds[r].status.Unassigned? {
        StaysPlaced(before, Assign(before, waiting[n], None), r);
      }
      assert waiting == waiting[..n] + [waiting[n]];
    }
  }

  lemma StaysPlaced(s: Desk, t: Desk, r: Id)
    requires r in s.rounds && r in t.rounds && t == s.(rounds := t.rounds) && t.rounds[r] == s.rounds[r]
    ensures Placed(s, r) ==> Placed(t, r)
  {
    forall a: Id
      ensures Suits(t, a, r) <==> Suits(s, a, r)
    {
      SameSuits(s, t, a, r);
    }
  }

  // Starting over restarts the farm's one open round and touches no other.
  lemma RestartedRound(s: Desk, f: Id, r: Id)
    requires Valid(s) && HasOpen(s, f) && r in s.rounds
    ensures var t := StartOver(s, f);
            && r in t.rounds && t.rounds[r].farm == s.rounds[r].farm
            && (if s.rounds[r].farm == f && s.rounds[r].Open() then
                  Placed(t, r) && t.declines == set d | d in s.declines && d.0 != r
                else t.rounds[r] == s.rounds[r])
  {
    hide Assign, Placed, RoundFits, FarmFits;
    StartOverIs(s, f);
    WaitingHasNone(s, r);
    var q := Max(OpenOf(s, f));
    var u := Reset(s, q).(declines := set d | d in s.declines && d.0 != q);
    AssignPlaces(u, q, None, r);
    AssignHands(u, q, None);
  }

  lemma OpenedRound(s: Desk, f: Id, preferred: Option<Id>, r: Id)
    requires r in s.rounds && s.next !in s.rounds && (s.rounds[r].status.Unassigned? ==> s.rounds[r].agent.None?)
    ensures OpenRound(s, f, preferred).Ok? ==>
              var t := OpenRound(s, f, preferred).value;
              r in t.rounds && t.rounds[r] == s.rounds[r] && t.declines == s.declines
  {
    hide Assign, HasOpen;
    AssignPlaces(Added(s, f), s.next, preferred, r);
    AssignHands(Added(s, f), s.next, preferred);
  }

  lemma EditedRound(s: Desk, e: Event, r: Id)
    requires Valid(s) && e.Edit? && r in s.rounds && Apply(s, e).Ok?
    ensures var t := After(s, e);
            && r in t.rounds && t.rounds[r].farm == s.rounds[r].farm
            && (if MovesAway(s, e, r) then Placed(t, r) && t.declines == set d | d in s.declines && d.0 != r
                else t.rounds[r] == s.rounds[r])
  {
    hide Valid, OpenRound, StartOver, HasOpen, LastAgent, Placed;
    WaitingHasNone(s, r);
    Comeback.FreshRound(s);
    var Read(g, seen) := s.farmReads[e.session];
    var to := NewLga(s, e);
    if Reopens(s, e, g) {
      var pending := s.(farms := s.farms[g := s.farms[g].(lga := to, status := FarmStatus.Pending, cluster := None)]);
      OpenedRound(pending, g, if to != seen.lga then None else LastAgent(s, g), r);
    } else {
      var moved := s.(farms := s.farms[g := s.farms[g].(lga := to)]);
      MoveKeeps(s, g, to);
      SameRounds(s, moved, g);
      OpenMeans(s, r, g);
      if HasOpen(moved, g) {
        RestartedRound(moved, g, r);
      }
    }
  }

  lemma OpenMeans(s: Desk, r: Id, g: Id)
    requires r in s.rounds
    ensures s.rounds[r].farm == g && s.rounds[r].Open() ==> HasOpen(s, g)
  {
  }

  lemma InsertedRound(s: Desk, owner: Id, lga: Id, preferred: Option<Id>, r: Id)
    requires Valid(s) && r in s.rounds
    ensures var t := After(s, Insert(owner, lga, preferred)); r in t.rounds && t.rounds[r] == s.rounds[r]
  {
    hide Valid, OpenRound;
    WaitingHasNone(s, r);
    var u := s.(farms := s.farms[s.next := Farm(owner, lga, FarmStatus.Pending, None)], next := s.next + 1);
    Comeback.NewRoundFree(s, u);
    OpenedRound(u, s.next, preferred, r);
  }

  /**
   * A round is recorded on, approved or rejected only by the agent holding it. Handed back, overtaken by its farm's
   * move, or retried while it waits, it goes to a suitable agent or waits because there is none. Nothing else moves
   * it, and it never changes farms.
   */
  lemma EveryRound(s: Desk, e: Event, r: Id)
    requires Valid(s) && r in s.rounds
    ensures var t := After(s, e);
            && r in t.rounds && t.rounds[r].farm == s.rounds[r].farm
            && (if HandsBack(s, e, r) || MovesAway(s, e, r) ||
                   (e.RetryJob? && r in e.waiting && s.rounds[r].status.Unassigned?)
                then Placed(t, r)
                else t.rounds[r] == RoundAfter(s, e, r))
  {
    hide Valid, Placed, UpdateFarm, InsertFarm, Decline, AssignAll;
    WaitingHasNone(s, r);
    match e
    case Insert(owner, lga, preferred) => InsertedRound(s, owner, lga, preferred, r);
    case Edit(_, _, _) =>
      if Apply(s, e).Ok? {
        EditedRound(s, e, r);
      } else {
        RefusedEdit(s, e, r);
      }
    case Declined(q, a) =>
      if HeldBy(s, q, a) {
        DeclinedRound(s, q, a, r);
      } else {
        assert Decline(s, q, a).Refused? by { NotTheirs(s, q, a); }
      }
    case RetryJob(waiting) => RetriedRound(s, waiting, r);
    case _ =>
  }

  lemma NotTheirs(s: Desk, q: Id, a: Id)
    requires !HeldBy(s, q, a)
    ensures Decline(s, q, a).Refused?
  {
  }

  lemma RefusedEdit(s: Desk, e: Event, r: Id)
    requires e.Edit? && r in s.rounds && Apply(s, e).Refused?
    ensures !MovesAway(s, e, r)
  {
    hide OpenRound, StartOver, HasOpen, LastAgent;
  }

  // ----- Declines -----

  /** A decline is remembered until the farm of its round moves to another LGA while the round is open. */
  lemma DeclinesMove(s: Desk, e: Event, r: Id, a: Id)
    requires Valid(s) && r in s.rounds
    ensures (r, a) in After(s, e).declines <==>
              (HandsBack(s, e, r) && e.agent == a) || ((r, a) in s.declines && !MovesAway(s, e, r))
  {
    hide Valid, Placed, UpdateFarm, InsertFarm, Decline, AssignAll;
    WaitingHasNone(s, r);
    match e
    case Insert(owner, lga, preferred) => InsertedDeclines(s, owner, lga, preferred);
    case Edit(_, _, _) =>
      if Apply(s, e).Ok? {
        EditedRound(s, e, r);
        if !MovesAway(s, e, r) {
          EditedDeclines(s, e, r, a);
        }
      } else {
        RefusedEdit(s, e, r);
      }
    case Declined(q, b) =>
      if HeldBy(s, q, b) {
        DeclinedRound(s, q, b, r);
      } else {
        NotTheirs(s, q, b);
      }
    case RetryJob(waiting) => RetriedRound(s, waiting, r);
    case _ =>
  }

  lemma InsertedDeclines(s: Desk, owner: Id, lga: Id, preferred: Option<Id>)
    ensures After(s, Insert(owner, lga, preferred)).declines == s.declines
  {
    hide Assign;
    var u := s.(farms := s.farms[s.next := Farm(owner, lga, FarmStatus.Pending, None)], next := s.next + 1);
    AssignHands(Added(u, s.next), u.next, preferred);
  }

  // An edit that does not restart this round drops none of its declines.
  lemma EditedDeclines(s: Desk, e: Event, r: Id, a: Id)
    requires Valid(s) && e.Edit? && r in s.rounds && Apply(s, e).Ok? && !MovesAway(s, e, r)
    ensures (r, a) in After(s, e).declines <==> (r, a) in s.declines
  {
    hide Valid, Assign, HasOpen, LastAgent;
    WaitingHasNone(s, r);
    var Read(g, seen) := s.farmReads[e.session];
    var to := NewLga(s, e);
    if Reopens(s, e, g) {
      var pending := s.(farms := s.farms[g := s.farms[g].(lga := to, status := FarmStatus.Pending, cluster := None)]);
      AssignHands(Added(pending, g), s.next, if to != seen.lga then None else LastAgent(s, g));
    } else {
      var moved := s.(farms := s.farms[g := s.farms[g].(lga := to)]);
      SameRounds(s, moved, g);
      if HasOpen(moved, g) {
        StartOverIs(moved, g);
        var q := Max(OpenOf(moved, g));
        AssignHands(Reset(moved, q).(declines := set d | d in moved.declines && d.0 != q), q, None);
      }
    }
  }

  // ----- Resubmitting -----

  /** The farm's newest round. */
  predicate Newest(s: Desk, r: Id, f: Id) {
    r in s.rounds && s.rounds[r].farm == f && forall q | q in s.rounds && s.rounds[q].farm == f :: q <= r
  }

  /**
   * An edit that reopens a farm without moving it to another LGA opens a round for the agent of its newest one,
   * if that agent is still verified and in the LGA; any new round is placed.
   */
  lemma ResubmissionReturns(s: Desk, e: Event, f: Id, r: Id)
    requires Valid(s) && e.Edit? && f in s.farms && Edits(s, e, f) && Reopens(s, e, f) && !HasOpen(s, f)
    requires Newest(s, r, f)
    ensures var t := After(s, e);
            && s.next in t.rounds && t.rounds[s.next].farm == f && Placed(t, s.next)
            && (NewLga(s, e) == s.farmReads[e.session].row.lga && s.rounds[r].agent.Some? &&
                Covers(s, s.rounds[r].agent.value, NewLga(s, e)) ==>
                  t.rounds[s.next].agent == s.rounds[r].agent)
  {
    hide Valid, Assign, HasOpen, Placed, LastAgent;
    Comeback.FreshRound(s);
    var to, seen := NewLga(s, e), s.farmReads[e.session].row;
    var pending := s.(farms := s.farms[f := s.farms[f].(lga := to, status := FarmStatus.Pending, cluster := None)]);
    SameRounds(s, pending, f);
    var preferred := if to != seen.lga then None else LastAgent(s, f);
    NewestIsLast(s, r, f);
    var u := Added(pending, f);
    NoDeclinesYet(s);
    AssignPlaces(u, s.next, preferred, s.next);
    if to == seen.lga && s.rounds[r].agent.Some? {
      PreferredGets(u, s.next, s.rounds[r].agent.value);
    }
  }

  lemma NewestIsLast(s: Desk, r: Id, f: Id)
    requires Newest(s, r, f)
    ensures LastAgent(s, f) == s.rounds[r].agent
  {
    var all := set q | q in s.rounds && s.rounds[q].farm == f;
    assert r in all && Max(all) in all;
  }

  lemma NoDeclinesYet(s: Desk)
    requires Valid(s)
    ensures forall a: Id :: (s.next, a) !in s.declines
  {
  }

  lemma PreferredGets(s: Desk, r: Id, a: Id)
    requires r in s.rounds && s.rounds[r].status.Unassigned?
    ensures Suits(s, a, r) ==> r in Assign(s, r, Some(a)).rounds && Assign(s, r, Some(a)).rounds[r].agent == Some(a)
  {
    hide Chosen;
    SuitsIsEligible(s, a, r);
    ChosenIsEligible(s, r, Some(a));
  }

  // ----- New farms, agents and reads -----

  /**
   * A new farm waits at the LGA given and has one round, which goes to the preferred agent if that agent is verified
   * in the LGA, or else to another who is, or waits because there is none.
   */
  lemma NewFarm(s: Desk, owner: Id, lga: Id, preferred: Option<Id>)
    requires Valid(s)
    ensures var t := After(s, Insert(owner, lga, preferred));
            var f: Id, r: Id := s.next, s.next + 1;
            && f !in s.farms && t.farms == s.farms[f := Farm(owner, lga, FarmStatus.Pending, None)]
            && r !in s.rounds && t.rounds.Keys == s.rounds.Keys + {r} && t.rounds[r].farm == f && Placed(t, r)
            && (preferred.Some? && Covers(s, preferred.value, lga) ==> t.rounds[r].agent == preferred)
  {
    hide Valid, Assign, HasOpen, Placed;
    var f: Id := s.next;
    var u := s.(farms := s.farms[f := Farm(owner, lga, FarmStatus.Pending, None)], next := s.next + 1);
    var v := Added(u, f);
    InsertOpens(s, owner, lga, preferred);
    NoDeclinesYet(s);
    AssignPlaces(v, u.next, preferred, u.next);
    AssignHands(v, u.next, preferred);
    if preferred.Some? {
      PreferredGets(v, u.next, preferred.value);
    }
  }

  lemma InsertOpens(s: Desk, owner: Id, lga: Id, preferred: Option<Id>)
    requires Valid(s)
    ensures var r: Id := s.next + 1; s.next !in s.farms && r !in s.rounds && forall a: Id :: (r, a) !in s.declines
    ensures var u := s.(farms := s.farms[s.next := Farm(owner, lga, FarmStatus.Pending, None)], next := s.next + 1);
            InsertFarm(s, owner, lga, preferred) == Ok(Assign(Added(u, s.next), u.next, preferred))
  {
    hide Assign;
    forall r | r in s.rounds
      ensures s.rounds[r].farm != s.next
    {
      assert RoundFits(s, r, s.rounds[r]);
    }
  }

  /** Agents are as they were last set, and a session has read of a farm what stood there when it last read one. */
  lemma AgentsAndReads(s: Desk, e: Event)
    requires Valid(s)
    ensures After(s, e).agents == if e.AgentSet? then s.agents[e.agent := e.row] else s.agents
    ensures After(s, e).farmReads == if e.ReadRow? && e.farm in s.farms then
                                       s.farmReads[e.session := Read(e.farm, s.farms[e.farm])]
                                     else s.farmReads
  {
    hide Valid, Assign, HasOpen, LastAgent;
    match e
    case Insert(owner, lga, preferred) =>
      var u := s.(farms := s.farms[s.next := Farm(owner, lga, FarmStatus.Pending, None)], next := s.next + 1);
      AssignHands(Added(u, s.next), u.next, preferred);
    case Edit(_, _, _) => EditedReads(s, e);
    case Declined(r, a) =>
      if HeldBy(s, r, a) {
        AssignHands(Reset(s, r).(declines := s.declines + {(r, a)}), r, None);
      }
    case RetryJob(waiting) => RetriedReads(s, waiting);
    case _ =>
  }

  lemma EditedReads(s: Desk, e: Event)
    requires e.Edit?
    ensures After(s, e).agents == s.agents && After(s, e).farmReads == s.farmReads
  {
    hide Assign, HasOpen, LastAgent;
    if Apply(s, e).Ok? {
      var Read(g, seen) := s.farmReads[e.session];
      var to := NewLga(s, e);
      var pending := s.(farms := s.farms[g := s.farms[g].(lga := to, status := FarmStatus.Pending, cluster := None)]);
      AssignHands(Added(pending, g), s.next, if to != seen.lga then None else LastAgent(s, g));
      var moved := s.(farms := s.farms[g := s.farms[g].(lga := to)]);
      SameRounds(s, moved, g);
      if HasOpen(moved, g) {
        StartOverIs(moved, g);
        var q := Max(OpenOf(moved, g));
        AssignHands(Reset(moved, q).(declines := set d | d in moved.declines && d.0 != q), q, None);
      }
    }
  }

  lemma {:induction false} RetriedReads(s: Desk, waiting: seq<Id>)
    ensures AssignAll(s, waiting).agents == s.agents && AssignAll(s, waiting).farmReads == s.farmReads
  {
    hide Assign;
    if waiting != [] {
      var n := |waiting| - 1;
      RetriedReads(s, waiting[..n]);
      AssignHands(AssignAll(s, waiting[..n]), waiting[n], None);
    }
  }
}
