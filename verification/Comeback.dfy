/**
 * Whether a suspended farm can ever be verified again. Suspending is described as something a later
 * approved verification undoes; that takes a round, and only some suspended farms can still get one.
 */
module Comeback {
  import opened Rows
  import opened Ids
  import opened Rounds
  import opened RoundProofs

  /** Some session read the farm while an edit of it would still have reopened it. */
  ghost predicate ReadBefore(s: Desk, f: Id) {
    exists session | session in s.farmReads ::
      s.farmReads[session].id == f && (s.farmReads[session].row.status.Rejected? || s.farmReads[session].row.status.Verified?)
  }

  ghost predicate Stranded(s: Desk, f: Id) {
    f in s.farms && s.farms[f].status.Suspended? && !HasOpen(s, f) && !ReadBefore(s, f)
  }

  ghost predicate VerifiedAfter(s: Desk, events: seq<Event>, f: Id) {
    f in Run(s, events).farms && Run(s, events).farms[f].status.Verified?
  }

  // ----- No way back -----

  // A step opens no round of the farm if the farm had none.
  ghost predicate OpensNone(s: Desk, t: Desk, f: Id) {
    HasOpen(t, f) ==> HasOpen(s, f)
  }

  lemma AssignOpensNone(s: Desk, r: Id, preferred: Option<Id>, f: Id)
    ensures OpensNone(s, Assign(s, r, preferred), f)
  {
    hide Assign, HasOpen;
    AssignHands(s, r, preferred);
    HandedOpen(s, Assign(s, r, preferred), r);
  }

  lemma {:induction false} AssignAllOpensNone(s: Desk, waiting: seq<Id>, f: Id)
    ensures OpensNone(s, AssignAll(s, waiting), f)
  {
    hide Assign, HasOpen;
    if waiting != [] {
      var n := |waiting| - 1;
      AssignAllOpensNone(s, waiting[..n], f);
      AssignOpensNone(AssignAll(s, waiting[..n]), waiting[n], None, f);
    }
  }

  // A new round is open for its own farm only.
  lemma OpenRoundOpensOne(s: Desk, g: Id, preferred: Option<Id>, f: Id)
    requires s.next !in s.rounds && f != g
    ensures OpenRound(s, g, preferred).Ok? ==> OpensNone(s, OpenRound(s, g, preferred).value, f)
  {
    hide Assign, HasOpen;
    if !HasOpen(s, g) {
      AddedOpen(s, g);
      AssignOpensNone(Added(s, g), s.next, preferred, f);
    }
  }

  // Replacing a round of another farm, or one already open, opens none.
  lemma ReplacedOpensNone(s: Desk, t: Desk, r: Id, f: Id)
    requires r in s.rounds && r in t.rounds && t.rounds == s.rounds[r := t.rounds[r]]
    requires t.rounds[r].farm == s.rounds[r].farm && (s.rounds[r].Open() || !t.rounds[r].Open())
    ensures OpensNone(s, t, f)
  {
    if q :| q in t.rounds && t.rounds[q].farm == f && t.rounds[q].Open() {
      assert s.rounds[q].farm == f && s.rounds[q].Open();
    }
  }

  lemma DeclineOpensNone(s: Desk, r: Id, a: Id, f: Id)
    requires Decline(s, r, a).Ok?
    ensures OpensNone(s, Decline(s, r, a).value, f)
  {
    hide Assign, HasOpen;
    var u := Reset(s, r).(declines := s.declines + {(r, a)});
    ReplacedOpensNone(s, u, r, f);
    AssignOpensNone(u, r, None, f);
  }

  lemma StartOverOpensNone(s: Desk, g: Id, f: Id)
    requires HasOpen(s, g)
    ensures OpensNone(s, StartOver(s, g), f)
  {
    hide Assign, HasOpen;
    StartOverIs(s, g);
    var r := Max(OpenOf(s, g));
    var u := Reset(s, r).(declines := set d | d in s.declines && d.0 != r);
    ReplacedOpensNone(s, u, r, f);
    AssignOpensNone(u, r, None, f);
  }

  lemma FreshRound(s: Desk)
    requires Valid(s)
    ensures s.next !in s.rounds
  {
    forall r | r in s.rounds
      ensures r < s.next
    {
      assert RoundFits(s, r, s.rounds[r]);
    }
  }

  lemma EditOpensNone(s: Desk, session: Id, lga: Option<Id>, addressChanged: bool, f: Id)
    requires Valid(s) && Stranded(s, f) && UpdateFarm(s, session, lga, addressChanged).Ok?
    ensures !HasOpen(UpdateFarm(s, session, lga, addressChanged).value, f)
  {
    hide Valid, OpenRound, StartOver, HasOpen, LastAgent;
    FreshRound(s);
    var Read(g, seen) := s.farmReads[session];
    var to := if lga.Some? then lga.value else seen.lga;
    var reopen := seen.status.Rejected? || (seen.status.Verified? && (to != seen.lga || addressChanged));
    if reopen {
      var pending := s.(farms := s.farms[g := s.farms[g].(lga := to, status := FarmStatus.Pending, cluster := None)]);
      SameRounds(s, pending, f);
      OpenRoundOpensOne(pending, g, if to != seen.lga then None else LastAgent(s, g), f);
    } else {
      var moved := s.(farms := s.farms[g := s.farms[g].(lga := to)]);
      SameRounds(s, moved, f);
      SameRounds(s, moved, g);
      if HasOpen(moved, g) {
        StartOverOpensNone(moved, g, f);
      }
    }
  }

  lemma StepOpensNone(s: Desk, e: Event, f: Id)
    requires Valid(s) && Stranded(s, f)
    ensures !HasOpen(After(s, e), f)
  {
    hide Valid, UpdateFarm, OpenRound, Decline, AssignAll, HasOpen;
    if Apply(s, e).Ok? {
      var t := After(s, e);
      match e
      case Insert(owner, lga, preferred) =>
        FreshRound(s);
        FarmIsOld(s, f);
        var u := s.(farms := s.farms[s.next := Farm(owner, lga, FarmStatus.Pending, None)], next := s.next + 1);
        NewRoundFree(s, u);
        SameRounds(s, u, f);
        OpenRoundOpensOne(u, s.next, preferred, f);
      case Edit(session, lga, addressChanged) => EditOpensNone(s, session, lga, addressChanged, f);
      case Recorded(r, _) => ReplacedOpensNone(s, t, r, f);
      case Declined(r, a) => DeclineOpensNone(s, r, a, f);
      case Approved(r, _, _) => ReplacedOpensNone(s, t, r, f);
      case Rejected(r, _) => ReplacedOpensNone(s, t, r, f);
      case RetryJob(waiting) => AssignAllOpensNone(s, waiting, f);
      case _ => SameRounds(s, t, f);
    }
  }

  lemma NewRoundFree(s: Desk, t: Desk)
    requires Valid(s) && t.rounds == s.rounds && t.next == s.next + 1
    ensures t.next !in t.rounds
  {
    forall r | r in s.rounds
      ensures r < s.next
    {
      assert RoundFits(s, r, s.rounds[r]);
    }
  }

  lemma {:induction false} AssignAllReads(s: Desk, waiting: seq<Id>)
    ensures AssignAll(s, waiting).farmReads == s.farmReads
  {
    hide Assign;
    if waiting != [] {
      AssignAllReads(s, waiting[..|waiting| - 1]);
      AssignHands(AssignAll(s, waiting[..|waiting| - 1]), waiting[|waiting| - 1], None);
    }
  }

  lemma AssignReads(s: Desk, r: Id, preferred: Option<Id>)
    ensures Assign(s, r, preferred).farmReads == s.farmReads
  {
    hide Assign;
    AssignHands(s, r, preferred);
  }

  lemma OpenRoundReads(s: Desk, f: Id, preferred: Option<Id>)
    ensures OpenRound(s, f, preferred).Ok? ==> OpenRound(s, f, preferred).value.farmReads == s.farmReads
  {
    hide Assign, HasOpen;
    AssignReads(Added(s, f), s.next, preferred);
  }

  lemma EditReads(s: Desk, session: Id, lga: Option<Id>, addressChanged: bool)
    requires UpdateFarm(s, session, lga, addressChanged).Ok?
    ensures UpdateFarm(s, session, lga, addressChanged).value.farmReads == s.farmReads
  {
    hide OpenRound, StartOver, HasOpen, LastAgent;
    var Read(g, seen) := s.farmReads[session];
    var to := if lga.Some? then lga.value else seen.lga;
    var pending := s.(farms := s.farms[g := s.farms[g].(lga := to, status := FarmStatus.Pending, cluster := None)]);
    var moved := s.(farms := s.farms[g := s.farms[g].(lga := to)]);
    OpenRoundReads(pending, g, if to != seen.lga then None else LastAgent(s, g));
    SameRounds(s, moved, g);
    if HasOpen(moved, g) {
      StartOverReads(moved, g);
    }
  }

  lemma StartOverReads(s: Desk, g: Id)
    requires HasOpen(s, g)
    ensures StartOver(s, g).farmReads == s.farmReads
  {
    hide Assign, HasOpen;
    StartOverIs(s, g);
    var r := Max(OpenOf(s, g));
    AssignReads(Reset(s, r).(declines := set d | d in s.declines && d.0 != r), r, None);
  }

  // Only reading a farm changes what has been read.
  lemma OthersRead(s: Desk, e: Event)
    requires !e.ReadRow? && Apply(s, e).Ok?
    ensures After(s, e).farmReads == s.farmReads
  {
    hide Assign, AssignAll, OpenRound, UpdateFarm;
    match e
    case Insert(owner, lga, preferred) =>
      var u := s.(farms := s.farms[s.next := Farm(owner, lga, FarmStatus.Pending, None)], next := s.next + 1);
      OpenRoundReads(u, s.next, preferred);
    case Edit(session, lga, addressChanged) => EditReads(s, session, lga, addressChanged);
    case Declined(r, a) => AssignReads(Reset(s, r).(declines := s.declines + {(r, a)}), r, None);
    case RetryJob(waiting) => AssignAllReads(s, waiting);
    case _ =>
  }

  lemma StepStrands(s: Desk, e: Event, f: Id)
    requires Valid(s) && Stranded(s, f)
    ensures Stranded(After(s, e), f)
  {
    hide Valid, HasOpen, UpdateFarm, InsertFarm, Decline, Approve, Reject, Record, Suspend, SetAgent, AssignAll;
    SuspendedUntilStaleEdit(s, e, f);
    StepOpensNone(s, e, f);
    if !e.ReadRow? && Apply(s, e).Ok? {
      OthersRead(s, e);
    }
  }

  /** A stranded farm is never verified again, nor gets another round, whatever anybody does. */
  lemma {:induction false} StrandedForGood(s: Desk, events: seq<Event>, f: Id)
    requires Valid(s) && Stranded(s, f)
    ensures Stranded(Run(s, events), f)
  {
    hide Valid, Stranded, After;
    if events != [] {
      var n := |events| - 1;
      StrandedForGood(s, events[..n], f);
      RunKeeps(s, events[..n]);
      StepStrands(Run(s, events[..n]), events[n], f);
    }
  }

  // ----- The ways back -----

  lemma {:induction false} RunOn(s: Desk, first: seq<Event>, rest: seq<Event>)
    ensures Run(s, first + rest) == Run(Run(s, first), rest)
  {
    hide After;
    if rest == [] {
      assert first + rest == first;
    } else {
      var n := |rest| - 1;
      RunOn(s, first, rest[..n]);
      assert (first + rest)[..|first| + n] == first + rest[..n];
    }
  }

  lemma RunOne(s: Desk, e: Event)
    ensures Run(s, [e]) == After(s, e)
  {
    hide After;
    assert [e][..0] == [];
    assert Run(s, []) == s;
  }

  // A round in an agent's hands can be approved.
  lemma HeldCanBeVerified(s: Desk, r: Id, f: Id)
    requires Valid(s) && r in s.rounds && s.rounds[r].Held() && s.rounds[r].farm == f
    ensures exists events :: VerifiedAfter(s, events, f)
  {
    assert RoundFits(s, r, s.rounds[r]);
    var e := Event.Approved(r, s.rounds[r].agent.value, true);
    RunOne(s, e);
    assert VerifiedAfter(s, [e], f);
  }

  // An agent nobody has heard of has declined nothing.
  function Newcomer(s: Desk): (a: Id)
    ensures forall r :: (r, a) !in s.declines
  {
    var known := set d | d in s.declines :: d.1;
    if known == {} then
      assert forall d | d in s.declines :: d.1 in known;
      0
    else
      assert forall d | d in s.declines :: d.1 in known;
      Max(known) + 1
  }

  // A round waiting for an agent gets one when somebody new takes up the LGA.
  lemma WaitingGetsHeld(s: Desk, r: Id)
    requires Valid(s) && r in s.rounds && s.rounds[r].status.Unassigned?
    ensures exists events :: var t := Run(s, events);
              Valid(t) && r in t.rounds && t.rounds[r].Held() && t.rounds[r].farm == s.rounds[r].farm
  {
    hide Valid, AssignAll, Waits;
    FarmOfRound(s, r);
    var a := Newcomer(s);
    var hired := AgentSet(a, Agent(true, s.farms[s.rounds[r].farm].lga, 0));
    var t := After(s, hired);
    StepKeeps(s, hired);
    assert a in Eligible(t, r);
    var retried := After(t, RetryJob([r]));
    StepKeeps(t, RetryJob([r]));
    RetryLeavesNobody(t, [r], r);
    RetriedOne(t, r);
    RunOne(s, hired);
    RunOne(t, RetryJob([r]));
    RunOn(s, [hired], [RetryJob([r])]);
    assert Run(s, [hired] + [RetryJob([r])]) == retried;
  }

  lemma FarmOfRound(s: Desk, r: Id)
    requires Valid(s) && r in s.rounds
    ensures s.rounds[r].farm in s.farms
  {
    assert RoundFits(s, r, s.rounds[r]);
  }

  lemma RetriedOne(s: Desk, r: Id)
    requires r in s.rounds && s.rounds[r].status.Unassigned?
    requires r in AssignAll(s, [r]).rounds && Eligible(AssignAll(s, [r]), r) != {}
    requires Waits(AssignAll(s, [r]), r) ==> Eligible(AssignAll(s, [r]), r) == {}
    ensures AssignAll(s, [r]).rounds[r].Held() && AssignAll(s, [r]).rounds[r].farm == s.rounds[r].farm
  {
    hide Assign, Eligible;
    assert [r][..0] == [];
    assert AssignAll(s, [r]) == Assign(s, r, None);
    AssignHands(s, r, None);
  }

  // A farm with an open round can be verified.
  lemma OpenCanBeVerified(s: Desk, f: Id)
    requires Valid(s) && HasOpen(s, f)
    ensures exists events :: VerifiedAfter(s, events, f)
  {
    hide Valid, Run;
    var r :| r in s.rounds && s.rounds[r].farm == f && s.rounds[r].Open();
    if s.rounds[r].Held() {
      HeldCanBeVerified(s, r, f);
    } else {
      WaitingGetsHeld(s, r);
      var first :| var t := Run(s, first);
        Valid(t) && r in t.rounds && t.rounds[r].Held() && t.rounds[r].farm == s.rounds[r].farm;
      HeldCanBeVerified(Run(s, first), r, f);
      var rest :| VerifiedAfter(Run(s, first), rest, f);
      RunOn(s, first, rest);
      assert VerifiedAfter(s, first + rest, f);
    }
  }

  // An edit decided on a row read before the suspension opens a round.
  lemma ReopenedOpens(s: Desk, session: Id, f: Id)
    requires session in s.farmReads && s.farmReads[session].id == f && f in s.farms && !HasOpen(s, f)
    requires s.next !in s.rounds
    requires s.farmReads[session].row.status.Rejected? || s.farmReads[session].row.status.Verified?
    ensures HasOpen(After(s, Edit(session, None, true)), f)
  {
    hide Assign, HasOpen, LastAgent;
    var seen := s.farmReads[session].row;
    var pending := s.(farms := s.farms[f := s.farms[f].(lga := seen.lga, status := FarmStatus.Pending, cluster := None)]);
    SameRounds(s, pending, f);
    AddedOpen(pending, f);
    AssignHands(Added(pending, f), s.next, LastAgent(s, f));
    HandedOpen(Added(pending, f), Assign(Added(pending, f), s.next, LastAgent(s, f)), s.next);
  }

  lemma ReadBeforeCanBeVerified(s: Desk, f: Id)
    requires Valid(s) && f in s.farms && !HasOpen(s, f) && ReadBefore(s, f)
    ensures exists events :: VerifiedAfter(s, events, f)
  {
    hide Valid, HasOpen, Run, After;
    FreshRound(s);
    var session :| session in s.farmReads && s.farmReads[session].id == f &&
      (s.farmReads[session].row.status.Rejected? || s.farmReads[session].row.status.Verified?);
    var e := Edit(session, None, true);
    ReopenedOpens(s, session, f);
    StepKeeps(s, e);
    OpenCanBeVerified(After(s, e), f);
    var rest :| VerifiedAfter(After(s, e), rest, f);
    RunOne(s, e);
    RunOn(s, [e], rest);
    assert VerifiedAfter(s, [e] + rest, f);
  }

  /**
   * A suspended farm can be verified again if and only if it has a round open, or some edit under way read
   * it, before the suspension, rejected or verified. Without either nothing brings it back.
   */
  lemma ComesBackIff(s: Desk, f: Id)
    requires Valid(s) && f in s.farms && s.farms[f].status.Suspended?
    ensures (exists events :: VerifiedAfter(s, events, f)) <==> HasOpen(s, f) || ReadBefore(s, f)
  {
    hide Valid, HasOpen, ReadBefore, Run;
    if HasOpen(s, f) {
      OpenCanBeVerified(s, f);
    } else if ReadBefore(s, f) {
      ReadBeforeCanBeVerified(s, f);
    } else {
      forall events
        ensures !VerifiedAfter(s, events, f)
      {
        StrandedForGood(s, events, f);
      }
    }
  }

  // ----- Two farms suspended while verified -----

  function Staff(): map<Id, Agent> {
    map[9 := Agent(true, 5, 0)]
  }

  // Farm 0 of owner 1, in agent 9's LGA, with the one round it was inserted with.
  function Inserted(status: RoundStatus, farm: FarmStatus, cluster: Option<Id>): Desk {
    Desk(map[0 := Farm(1, 5, farm, cluster)], map[1 := Round(0, Some(9), status)], {}, Staff(), map[], 2)
  }

  lemma InsertedFirst()
    ensures After(Empty(Staff()), Insert(1, 5, Some(9))) == Inserted(RoundStatus.Assigned, FarmStatus.Pending, None)
  {
    hide Chosen;
    var farm := Empty(Staff()).(farms := map[0 := Farm(1, 5, FarmStatus.Pending, None)], next := 1);
    var added := farm.(rounds := map[1 := Round(0, None, Unassigned)], next := 2);
    assert 9 in Eligible(added, 1);
    ChosenIsEligible(added, 1, Some(9));
    assert !HasOpen(farm, 0);
    assert Added(farm, 0) == added;
    assert Assign(added, 1, Some(9)) == Inserted(RoundStatus.Assigned, FarmStatus.Pending, None);
  }

  lemma ApprovedNext()
    ensures Run(Empty(Staff()), [Insert(1, 5, Some(9)), Event.Approved(1, 9, true)])
            == Inserted(RoundStatus.Approved, FarmStatus.Verified, Some(9))
  {
    hide InsertFarm;
    var events := [Insert(1, 5, Some(9)), Event.Approved(1, 9, true)];
    InsertedFirst();
    RunOne(Empty(Staff()), events[0]);
    RunOne(Inserted(RoundStatus.Assigned, FarmStatus.Pending, None), events[1]);
    RunOn(Empty(Staff()), [events[0]], [events[1]]);
    assert events == [events[0]] + [events[1]];
  }

  // The farm suspended, with whatever edits have read.
  function Visited(farm: FarmStatus, reads': map<Id, Read<Farm>>): Desk {
    Inserted(RoundStatus.Approved, farm, Some(9)).(farmReads := reads')
  }

  lemma VisitedSuspended(reads': map<Id, Read<Farm>>)
    ensures After(Visited(FarmStatus.Verified, reads'), Event.Suspended(1)) == Visited(FarmStatus.Suspended, reads')
    ensures !HasOpen(Visited(FarmStatus.Suspended, reads'), 0)
  {
    assert Suspend(Visited(FarmStatus.Verified, reads'), 1).farms == Visited(FarmStatus.Suspended, reads').farms;
  }

  // What has happened by the time owner 1 is suspended.
  function History(): seq<Event> {
    [Insert(1, 5, Some(9)), Event.Approved(1, 9, true)]
  }

  lemma SuspendedNext()
    ensures Run(Empty(Staff()), History() + [Event.Suspended(1)]) == Visited(FarmStatus.Suspended, map[])
  {
    hide Run, After;
    ApprovedNext();
    VisitedSuspended(map[]);
    RunOne(Visited(FarmStatus.Verified, map[]), Event.Suspended(1));
    RunOn(Empty(Staff()), History(), [Event.Suspended(1)]);
  }

  /**
   * A farm suspended right after it was verified is never verified again: the approval that would bring it
   * back needs a round, and nothing opens one.
   */
  lemma SuspendedForGood(later: seq<Event>)
    ensures var s := Run(Empty(Staff()), History() + [Event.Suspended(1)]);
            && 0 in s.farms && s.farms[0].status.Suspended?
            && !VerifiedAfter(s, later, 0)
  {
    hide Run, Valid, HasOpen;
    EmptyValid();
    SuspendedNext();
    VisitedSuspended(map[]);
    RunKeeps(Empty(Staff()), History() + [Event.Suspended(1)]);
    StrandedForGood(Visited(FarmStatus.Suspended, map[]), later, 0);
  }

  lemma EmptyValid()
    ensures Valid(Empty(Staff()))
  {
  }

  function Seen(): map<Id, Read<Farm>> {
    map[7 := Read(0, Farm(1, 5, FarmStatus.Verified, Some(9)))]
  }

  lemma SeenNext()
    ensures Run(Empty(Staff()), History() + [ReadRow(7, 0), Event.Suspended(1)]) == Visited(FarmStatus.Suspended, Seen())
  {
    hide Run;
    var verified := Visited(FarmStatus.Verified, map[]);
    ApprovedNext();
    assert After(verified, ReadRow(7, 0)) == Visited(FarmStatus.Verified, Seen());
    VisitedSuspended(Seen());
    RunOne(verified, ReadRow(7, 0));
    RunOne(Visited(FarmStatus.Verified, Seen()), Event.Suspended(1));
    RunOn(verified, [ReadRow(7, 0)], [Event.Suspended(1)]);
    RunOn(Empty(Staff()), History(), [ReadRow(7, 0), Event.Suspended(1)]);
    assert [ReadRow(7, 0)] + [Event.Suspended(1)] == [ReadRow(7, 0), Event.Suspended(1)];
  }

  /** The same farm, had an edit read it before the suspension, goes back to waiting when that edit commits. */
  lemma StaleEditBringsBack()
    ensures var s := Run(Empty(Staff()), History() + [ReadRow(7, 0), Event.Suspended(1)]);
            && 0 in s.farms && s.farms[0].status.Suspended? && !HasOpen(s, 0)
            && var t := After(s, Edit(7, None, true));
            0 in t.farms && t.farms[0].status.Pending?
  {
    hide Run, Valid, HasOpen, LastAgent, Assign;
    var s := Visited(FarmStatus.Suspended, Seen());
    SeenNext();
    VisitedSuspended(Seen());
    var pending := s.(farms := s.farms[0 := s.farms[0].(status := FarmStatus.Pending, cluster := None)]);
    SameRounds(s, pending, 0);
    OpenRoundFarms(pending, 0, LastAgent(s, 0));
  }
}
