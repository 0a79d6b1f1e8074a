/** What every step on farms and rounds keeps, and why declines run out. */
module RoundProofs {
  import opened Rows
  import opened Ids
  import opened PickAgent
  import opened Rounds

  // ----- The invariant -----

  predicate RoundFits(s: Desk, r: Id, row: Round) {
    && r < s.next && row.farm in s.farms
    && (row.status.Unassigned? <==> row.agent.None?)
    && (row.Held() ==> row.agent.Some? && (r, row.agent.value) !in s.declines)
  }

  ghost predicate OneOpenEach(rounds: map<Id, Round>) {
    forall r, q | r in rounds && q in rounds && rounds[r].Open() && rounds[q].Open() &&
      rounds[r].farm == rounds[q].farm :: r == q
  }

  // A waiting farm has an open round and no cluster; a verified one the other way round.
  ghost predicate FarmFits(s: Desk, f: Id) {
    f in s.farms
    && (s.farms[f].status.Pending? ==> HasOpen(s, f) && s.farms[f].cluster.None?)
    && (s.farms[f].status.Verified? ==> !HasOpen(s, f) && s.farms[f].cluster.Some?)
    && (s.farms[f].status.Rejected? ==> !HasOpen(s, f) && s.farms[f].cluster.None?)
  }

  ghost predicate Valid(s: Desk) {
    && (forall f | f in s.farms :: f < s.next && FarmFits(s, f))
    && (forall r | r in s.rounds :: RoundFits(s, r, s.rounds[r]))
    && OneOpenEach(s.rounds)
    && (forall d | d in s.declines :: d.0 < s.next)
    && (forall session | session in s.farmReads :: s.farmReads[session].id < s.next)
  }

  // ----- Assigning -----

  lemma ChosenIsEligible(s: Desk, r: Id, preferred: Option<Id>)
    requires r in s.rounds
    ensures Chosen(s, r, preferred).Some? ==> Chosen(s, r, preferred).value in Eligible(s, r)
    ensures Chosen(s, r, preferred).None? <==> Eligible(s, r) == {}
    ensures preferred.Some? && preferred.value in Eligible(s, r) ==> Chosen(s, r, preferred) == preferred
  {
    hide Pick, Eligible;
    EligibleAgents(s, r);
    AscendingIncreases(Eligible(s, r));
    var ids := Ascending(Eligible(s, r));
    var all := CandidatesFrom(s, ids);
    PicksACandidate(all, preferred);
    if Pick(all, preferred).Some? {
      var i :| 0 <= i < |all| && all[i].id == Pick(all, preferred).value;
      assert ids[i] in Eligible(s, r);
    }
    if a :| a in Eligible(s, r) {
      assert a in ids;
    }
    if preferred.Some? && preferred.value in Eligible(s, r) {
      assert preferred.value in ids;
      var i :| 0 <= i < |ids| && ids[i] == preferred.value;
      assert all[i].id == preferred.value;
    }
  }

  lemma EligibleAgents(s: Desk, r: Id)
    requires r in s.rounds
    ensures forall a | a in Eligible(s, r) :: a in s.agents
  {
  }

  // One round changes hands; everything else about the desk stays.
  ghost predicate Handed(s: Desk, t: Desk, r: Id) {
    && t == s.(rounds := t.rounds) && t.rounds.Keys == s.rounds.Keys
    && (forall q | q in s.rounds && q != r :: t.rounds[q] == s.rounds[q])
    && (r in s.rounds ==> t.rounds[r].farm == s.rounds[r].farm && (t.rounds[r].Open() <==> s.rounds[r].Open()))
  }

  lemma AssignHands(s: Desk, r: Id, preferred: Option<Id>)
    ensures Handed(s, Assign(s, r, preferred), r)
    ensures r in s.rounds && Assign(s, r, preferred) != s ==>
              && s.rounds[r].status.Unassigned?
              && Assign(s, r, preferred).rounds[r].status.Assigned?
              && Assign(s, r, preferred).rounds[r].agent.Some?
              && Assign(s, r, preferred).rounds[r].agent.value in Eligible(s, r)
    ensures r in s.rounds && s.rounds[r].status.Unassigned? && Assign(s, r, preferred) == s ==> Eligible(s, r) == {}
  {
    hide Chosen, Eligible;
    if r in s.rounds {
      ChosenIsEligible(s, r, preferred);
    }
  }

  lemma HandedOpen(s: Desk, t: Desk, r: Id)
    requires Handed(s, t, r)
    ensures forall f :: HasOpen(t, f) <==> HasOpen(s, f)
  {
    forall f
      ensures HasOpen(t, f) <==> HasOpen(s, f)
    {
      if q :| q in s.rounds && s.rounds[q].farm == f && s.rounds[q].Open() {
        assert t.rounds[q].farm == f && t.rounds[q].Open();
      }
      if q :| q in t.rounds && t.rounds[q].farm == f && t.rounds[q].Open() {
        assert s.rounds[q].farm == f && s.rounds[q].Open();
      }
    }
  }

  lemma HandedKeeps(s: Desk, t: Desk, r: Id)
    requires Valid(s) && Handed(s, t, r) && (r in s.rounds ==> RoundFits(t, r, t.rounds[r]))
    ensures Valid(t)
  {
    hide HasOpen;
    HandedOpen(s, t, r);
    forall q | q in t.rounds
      ensures RoundFits(t, q, t.rounds[q])
    {
      assert RoundFits(s, q, s.rounds[q]);
    }
    forall f | f in t.farms
      ensures FarmFits(t, f)
    {
      assert FarmFits(s, f);
    }
  }

  lemma AssignKeeps(s: Desk, r: Id, preferred: Option<Id>)
    requires Valid(s)
    ensures Valid(Assign(s, r, preferred))
  {
    hide FarmFits, OneOpenEach, Assign;
    var t := Assign(s, r, preferred);
    AssignHands(s, r, preferred);
    if r in s.rounds {
      assert RoundFits(s, r, s.rounds[r]);
    }
    HandedKeeps(s, t, r);
  }

  lemma {:induction false} AssignAllKeeps(s: Desk, waiting: seq<Id>)
    requires Valid(s)
    ensures Valid(AssignAll(s, waiting))
  {
    hide Valid, Assign;
    if waiting != [] {
      AssignAllKeeps(s, waiting[..|waiting| - 1]);
      AssignKeeps(AssignAll(s, waiting[..|waiting| - 1]), waiting[|waiting| - 1], None);
    }
  }

  // ----- Opening -----

  // A farm about to get its round: everything is in order but that it has none yet.
  ghost predicate AwaitsRound(s: Desk, f: Id) {
    && f in s.farms && s.farms[f].status.Pending? && s.farms[f].cluster.None? && !HasOpen(s, f)
    && (forall g | g in s.farms :: g < s.next && (g != f ==> FarmFits(s, g)))
    && (forall r | r in s.rounds :: RoundFits(s, r, s.rounds[r]))
    && OneOpenEach(s.rounds)
    && (forall d | d in s.declines :: d.0 < s.next)
    && (forall session | session in s.farmReads :: s.farmReads[session].id < s.next)
  }

  function Added(s: Desk, f: Id): Desk {
    s.(rounds := s.rounds[s.next := Round(f, None, Unassigned)], next := s.next + 1)
  }

  lemma AddedOpen(s: Desk, f: Id)
    requires s.next !in s.rounds
    ensures forall g :: HasOpen(Added(s, f), g) <==> HasOpen(s, g) || g == f
  {
    var t := Added(s, f);
    forall g
      ensures HasOpen(t, g) <==> HasOpen(s, g) || g == f
    {
      if g == f {
        assert t.rounds[s.next].farm == f && t.rounds[s.next].Open();
      }
      if q :| q in s.rounds && s.rounds[q].farm == g && s.rounds[q].Open() {
        assert t.rounds[q] == s.rounds[q];
      }
    }
  }

  lemma NextIsFree(s: Desk)
    requires forall r | r in s.rounds :: RoundFits(s, r, s.rounds[r])
    ensures s.next !in s.rounds
  {
  }

  lemma AddedKeeps(s: Desk, f: Id)
    requires AwaitsRound(s, f)
    ensures Valid(Added(s, f))
  {
    var t := Added(s, f);
    NextIsFree(s);
    AddedOpen(s, f);
    AddedFits(s, f);
    forall g | g in t.farms
      ensures FarmFits(t, g)
    {
      assert g != f ==> FarmFits(s, g);
    }
    NoneOpenBefore(s, f);
  }

  lemma AddedFits(s: Desk, f: Id)
    requires AwaitsRound(s, f)
    ensures forall r | r in Added(s, f).rounds :: RoundFits(Added(s, f), r, Added(s, f).rounds[r])
  {
    var t := Added(s, f);
    forall r | r in t.rounds
      ensures RoundFits(t, r, t.rounds[r])
    {
      if r != s.next {
        assert RoundFits(s, r, s.rounds[r]);
      }
    }
  }

  lemma NoneOpenBefore(s: Desk, f: Id)
    requires !HasOpen(s, f)
    ensures forall r | r in s.rounds && s.rounds[r].Open() :: s.rounds[r].farm != f
  {
  }

  lemma OpenRoundKeeps(s: Desk, f: Id, preferred: Option<Id>)
    requires AwaitsRound(s, f)
    ensures OpenRound(s, f, preferred).Ok? && Valid(OpenRound(s, f, preferred).value)
  {
    hide Valid, Assign;
    AddedKeeps(s, f);
    AssignKeeps(Added(s, f), s.next, preferred);
  }

  lemma OpenOnlyIfNone(s: Desk, f: Id, preferred: Option<Id>)
    ensures OpenRound(s, f, preferred).Ok? <==> !HasOpen(s, f)
  {
  }

  lemma InsertFarmKeeps(s: Desk, owner: Id, lga: Id, preferred: Option<Id>)
    requires Valid(s)
    ensures InsertFarm(s, owner, lga, preferred).Ok? && Valid(InsertFarm(s, owner, lga, preferred).value)
  {
    hide OpenRound;
    var t := s.(farms := s.farms[s.next := Farm(owner, lga, FarmStatus.Pending, None)], next := s.next + 1);
    NewFarmAwaits(s, t);
    OpenRoundKeeps(t, s.next, preferred);
  }

  lemma NewFarmAwaits(s: Desk, t: Desk)
    requires Valid(s) && t == s.(farms := t.farms, next := s.next + 1) && s.next in t.farms
    requires t.farms == s.farms[s.next := t.farms[s.next]]
    requires t.farms[s.next].status.Pending? && t.farms[s.next].cluster.None?
    ensures AwaitsRound(t, s.next)
  {
    forall r | r in t.rounds
      ensures RoundFits(t, r, t.rounds[r]) && t.rounds[r].farm != s.next
    {
      assert RoundFits(s, r, s.rounds[r]);
    }
    forall g | g in s.farms
      ensures FarmFits(t, g)
    {
      assert FarmFits(s, g);
      SameRounds(s, t, g);
    }
  }

  lemma SameRounds(s: Desk, t: Desk, f: Id)
    requires t.rounds == s.rounds
    ensures HasOpen(t, f) <==> HasOpen(s, f)
  {
  }

  // ----- Editing a farm -----

  // A change of one farm's row that touches no round.
  lemma FarmEdit(s: Desk, f: Id, row: Farm)
    requires Valid(s) && f in s.farms
    ensures var t := s.(farms := s.farms[f := row]);
            && (forall g | g in s.farms && g != f :: FarmFits(t, g))
            && (forall r | r in t.rounds :: RoundFits(t, r, t.rounds[r]))
            && (HasOpen(t, f) <==> HasOpen(s, f))
  {
    var t := s.(farms := s.farms[f := row]);
    SameRounds(s, t, f);
    forall g | g in s.farms && g != f
      ensures FarmFits(t, g)
    {
      assert FarmFits(s, g);
      SameRounds(s, t, g);
    }
    forall r | r in t.rounds
      ensures RoundFits(t, r, t.rounds[r])
    {
      assert RoundFits(s, r, s.rounds[r]);
    }
  }

  lemma ReopenKeeps(s: Desk, f: Id, lga: Id, preferred: Option<Id>)
    requires Valid(s) && f in s.farms
    ensures var pending := s.(farms := s.farms[f := s.farms[f].(lga := lga, status := FarmStatus.Pending, cluster := None)]);
            OpenRound(pending, f, preferred).Ok? ==> Valid(OpenRound(pending, f, preferred).value)
  {
    hide OpenRound, FarmFits, RoundFits;
    var row := s.farms[f].(lga := lga, status := FarmStatus.Pending, cluster := None);
    var pending := s.(farms := s.farms[f := row]);
    FarmEdit(s, f, row);
    OpenOnlyIfNone(pending, f, preferred);
    if !HasOpen(pending, f) {
      OpenRoundKeeps(pending, f, preferred);
    }
  }

  lemma MoveKeeps(s: Desk, f: Id, lga: Id)
    requires Valid(s) && f in s.farms
    ensures Valid(s.(farms := s.farms[f := s.farms[f].(lga := lga)]))
  {
    FarmEdit(s, f, s.farms[f].(lga := lga));
    assert FarmFits(s, f);
  }

  lemma ClearedKeeps(s: Desk, r: Id, declines: set<(Id, Id)>)
    requires Valid(s) && r in s.rounds && s.rounds[r].Open()
    requires forall q, a | q in s.rounds && q != r && s.rounds[q].Held() && (q, a) in declines :: (q, a) in s.declines
    requires forall d | d in declines :: d.0 < s.next
    ensures Valid(Reset(s, r).(declines := declines))
  {
    var t := Reset(s, r);
    var u := t.(declines := declines);
    HandedOpen(s, t, r);
    forall q | q in u.rounds
      ensures RoundFits(u, q, u.rounds[q])
    {
      assert RoundFits(s, q, s.rounds[q]);
    }
    forall f | f in u.farms
      ensures FarmFits(u, f)
    {
      assert FarmFits(s, f);
      SameRounds(t, u, f);
    }
  }

  lemma StartOverKeeps(s: Desk, f: Id)
    requires Valid(s) && HasOpen(s, f)
    ensures Valid(StartOver(s, f))
  {
    hide Valid, Assign, Reset, HasOpen;
    StartOverIs(s, f);
    var r := Max(OpenOf(s, f));
    var declines := set d | d in s.declines && d.0 != r;
    DropsOnly(s, r, declines);
    ClearedKeeps(s, r, declines);
    AssignKeeps(Reset(s, r).(declines := declines), r, None);
  }

  lemma DropsOnly(s: Desk, r: Id, declines: set<(Id, Id)>)
    requires Valid(s) && declines <= s.declines
    ensures forall d | d in declines :: d.0 < s.next
  {
  }

  lemma StartOverIs(s: Desk, f: Id)
    requires HasOpen(s, f)
    ensures OpenOf(s, f) != {}
    ensures var r := Max(OpenOf(s, f)); r in s.rounds && s.rounds[r].Open() && s.rounds[r].farm == f
    ensures var r := Max(OpenOf(s, f));
            StartOver(s, f) == Assign(Reset(s, r).(declines := set d | d in s.declines && d.0 != r), r, None)
  {
    hide Assign;
    var r :| r in s.rounds && s.rounds[r].farm == f && s.rounds[r].Open();
    assert r in OpenOf(s, f);
  }

  lemma UpdateFarmKeeps(s: Desk, session: Id, lga: Option<Id>, addressChanged: bool)
    requires Valid(s) && UpdateFarm(s, session, lga, addressChanged).Ok?
    ensures Valid(UpdateFarm(s, session, lga, addressChanged).value)
  {
    hide Valid, OpenRound, StartOver, HasOpen;
    var Read(f, seen) := s.farmReads[session];
    var to := if lga.Some? then lga.value else seen.lga;
    var moved := s.(farms := s.farms[f := s.farms[f].(lga := to)]);
    ReopenKeeps(s, f, to, if to != seen.lga then None else LastAgent(s, f));
    MoveKeeps(s, f, to);
    SameRounds(s, moved, f);
    if HasOpen(moved, f) {
      StartOverKeeps(moved, f);
    }
  }

  // ----- Agents' decisions -----

  lemma RecordKeeps(s: Desk, r: Id, a: Id)
    requires Valid(s) && Record(s, r, a).Ok?
    ensures Valid(Record(s, r, a).value)
  {
    hide FarmFits, OneOpenEach;
    var t := Record(s, r, a).value;
    assert RoundFits(s, r, s.rounds[r]);
    HandedKeeps(s, t, r);
  }

  lemma DeclineKeeps(s: Desk, r: Id, a: Id)
    requires Valid(s) && Decline(s, r, a).Ok?
    ensures Valid(Decline(s, r, a).value)
  {
    hide Assign;
    var declines := s.declines + {(r, a)};
    assert RoundFits(s, r, s.rounds[r]);
    ClearedKeeps(s, r, declines);
    AssignKeeps(Reset(s, r).(declines := declines), r, None);
  }

  // The one open round of a farm is decided, and the farm with it.
  lemma DecidedKeeps(s: Desk, r: Id, status: RoundStatus, farm: Farm)
    requires Valid(s) && r in s.rounds && s.rounds[r].Held() && s.rounds[r].farm in s.farms
    requires (status.Approved? && farm.status.Verified? && farm.cluster.Some?) ||
             (status.Rejected? && farm.status.Rejected? && farm.cluster.None?)
    ensures Valid(s.(rounds := s.rounds[r := s.rounds[r].(status := status)], farms := s.farms[s.rounds[r].farm := farm]))
  {
    var f := s.rounds[r].farm;
    var t := s.(rounds := s.rounds[r := s.rounds[r].(status := status)], farms := s.farms[f := farm]);
    DecidedOpen(s, t, r);
    forall q | q in t.rounds
      ensures RoundFits(t, q, t.rounds[q])
    {
      assert RoundFits(s, q, s.rounds[q]);
    }
    forall g | g in t.farms
      ensures FarmFits(t, g)
    {
      if g != f {
        assert FarmFits(s, g);
      }
    }
  }

  lemma DecidedOpen(s: Desk, t: Desk, r: Id)
    requires OneOpenEach(s.rounds) && r in s.rounds && s.rounds[r].Open() && r in t.rounds && !t.rounds[r].Open()
    requires t.rounds == s.rounds[r := t.rounds[r]] && t.rounds[r].farm == s.rounds[r].farm
    ensures !HasOpen(t, s.rounds[r].farm)
    ensures forall g | g != s.rounds[r].farm :: HasOpen(t, g) <==> HasOpen(s, g)
  {
    forall g | g != s.rounds[r].farm
      ensures HasOpen(t, g) <==> HasOpen(s, g)
    {
      if q :| q in s.rounds && s.rounds[q].farm == g && s.rounds[q].Open() {
        assert t.rounds[q] == s.rounds[q];
      }
    }
  }

  lemma ApproveKeeps(s: Desk, r: Id, a: Id, complete: bool)
    requires Valid(s) && Approve(s, r, a, complete).Ok?
    ensures Valid(Approve(s, r, a, complete).value)
  {
    hide Valid;
    var f := s.rounds[r].farm;
    DecidedKeeps(s, r, RoundStatus.Approved, s.farms[f].(status := FarmStatus.Verified, cluster := Some(a)));
  }

  lemma RejectKeeps(s: Desk, r: Id, a: Id)
    requires Valid(s) && Reject(s, r, a).Ok?
    ensures Valid(Reject(s, r, a).value)
  {
    hide Valid;
    var f := s.rounds[r].farm;
    DecidedKeeps(s, r, RoundStatus.Rejected, s.farms[f].(status := FarmStatus.Rejected, cluster := None));
  }

  lemma SuspendKeeps(s: Desk, owner: Id)
    requires Valid(s)
    ensures Valid(Suspend(s, owner))
  {
    var t := Suspend(s, owner);
    forall r | r in t.rounds
      ensures RoundFits(t, r, t.rounds[r])
    {
      assert RoundFits(s, r, s.rounds[r]);
    }
    forall f | f in t.farms
      ensures FarmFits(t, f)
    {
      assert FarmFits(s, f);
      SameRounds(s, t, f);
    }
  }

  lemma SetAgentKeeps(s: Desk, a: Id, row: Agent)
    requires Valid(s)
    ensures Valid(SetAgent(s, a, row))
  {
    var t := SetAgent(s, a, row);
    forall r | r in t.rounds
      ensures RoundFits(t, r, t.rounds[r])
    {
      assert RoundFits(s, r, s.rounds[r]);
    }
    forall f | f in t.farms
      ensures FarmFits(t, f)
    {
      assert FarmFits(s, f);
      SameRounds(s, t, f);
    }
  }

  lemma ReadFarmKeeps(s: Desk, session: Id, f: Id)
    requires Valid(s) && ReadFarm(s, session, f).Ok?
    ensures Valid(ReadFarm(s, session, f).value)
  {
    var t := ReadFarm(s, session, f).value;
    forall r | r in t.rounds
      ensures RoundFits(t, r, t.rounds[r])
    {
      assert RoundFits(s, r, s.rounds[r]);
    }
    forall g | g in t.farms
      ensures FarmFits(t, g)
    {
      assert FarmFits(s, g);
      SameRounds(s, t, g);
    }
  }

  // ----- Runs -----

  datatype Event =
    | Insert(owner: Id, lga: Id, preferred: Option<Id>)
    | ReadRow(session: Id, farm: Id)
    | Edit(session: Id, newLga: Option<Id>, addressChanged: bool)
    | Recorded(round: Id, agent: Id)
    | Declined(round: Id, agent: Id)
    | Approved(round: Id, agent: Id, complete: bool)
    | Rejected(round: Id, agent: Id)
    | Suspended(owner: Id)
    | AgentSet(agent: Id, row: Agent)
    | RetryJob(waiting: seq<Id>)

  function Apply(s: Desk, e: Event): Result<Desk> {
    match e
    case Insert(owner, lga, preferred) => InsertFarm(s, owner, lga, preferred)
    case ReadRow(session, f) => ReadFarm(s, session, f)
    case Edit(session, lga, addressChanged) => UpdateFarm(s, session, lga, addressChanged)
    case Recorded(r, a) => Record(s, r, a)
    case Declined(r, a) => Decline(s, r, a)
    case Approved(r, a, complete) => Approve(s, r, a, complete)
    case Rejected(r, a) => Reject(s, r, a)
    case Suspended(owner) => Ok(Suspend(s, owner))
    case AgentSet(a, row) => Ok(SetAgent(s, a, row))
    case RetryJob(waiting) => Ok(AssignAll(s, waiting))
  }

  function After(s: Desk, e: Event): Desk {
    match Apply(s, e)
    case Ok(t) => t
    case Refused(_) => s
  }

  function Run(s: Desk, events: seq<Event>): Desk {
    if events == [] then s else After(Run(s, events[..|events| - 1]), events[|events| - 1])
  }

  lemma StepKeeps(s: Desk, e: Event)
    requires Valid(s)
    ensures Valid(After(s, e))
  {
    hide Valid, InsertFarm, ReadFarm, UpdateFarm, Record, Decline, Approve, Reject, Suspend, SetAgent, AssignAll;
    if Apply(s, e).Ok? {
      match e
      case Insert(owner, lga, preferred) => InsertFarmKeeps(s, owner, lga, preferred);
      case ReadRow(session, f) => ReadFarmKeeps(s, session, f);
      case Edit(session, lga, addressChanged) => UpdateFarmKeeps(s, session, lga, addressChanged);
      case Recorded(r, a) => RecordKeeps(s, r, a);
      case Declined(r, a) => DeclineKeeps(s, r, a);
      case Approved(r, a, complete) => ApproveKeeps(s, r, a, complete);
      case Rejected(r, a) => RejectKeeps(s, r, a);
      case Suspended(owner) => SuspendKeeps(s, owner);
      case AgentSet(a, row) => SetAgentKeeps(s, a, row);
      case RetryJob(waiting) => AssignAllKeeps(s, waiting);
    }
  }

  lemma {:induction false} RunKeeps(s: Desk, events: seq<Event>)
    requires Valid(s)
    ensures Valid(Run(s, events))
  {
    hide Valid, After;
    if events != [] {
      RunKeeps(s, events[..|events| - 1]);
      StepKeeps(Run(s, events[..|events| - 1]), events[|events| - 1]);
    }
  }

  function Empty(agents: map<Id, Agent>): Desk {
    Desk(map[], map[], {}, agents, map[], 0)
  }

  /**
   * In every run: a waiting farm has exactly one open round and is in no cluster, a verified one has none
   * and is in a cluster, a rejected one has neither, and a suspended one has at most one open round; and
   * no round is held by an agent who declined it.
   */
  lemma RoundsMatchFarms(agents: map<Id, Agent>, events: seq<Event>, f: Id)
    requires f in Run(Empty(agents), events).farms
    ensures var s := Run(Empty(agents), events);
            && (s.farms[f].status.Pending? ==> |OpenOf(s, f)| == 1 && s.farms[f].cluster.None?)
            && (s.farms[f].status.Verified? ==> |OpenOf(s, f)| == 0 && s.farms[f].cluster.Some?)
            && (s.farms[f].status.Rejected? ==> |OpenOf(s, f)| == 0 && s.farms[f].cluster.None?)
            && (s.farms[f].status.Suspended? ==> |OpenOf(s, f)| <= 1)
            && (forall r | r in s.rounds && s.rounds[r].Held() ::
                  s.rounds[r].agent.Some? && (r, s.rounds[r].agent.value) !in s.declines)
  {
    hide Run;
    var s := Run(Empty(agents), events);
    RunKeeps(Empty(agents), events);
    assert FarmFits(s, f);
    OpenCount(s, f);
    forall r | r in s.rounds
      ensures RoundFits(s, r, s.rounds[r])
    {
    }
  }

  lemma OpenCount(s: Desk, f: Id)
    requires OneOpenEach(s.rounds)
    ensures |OpenOf(s, f)| == if HasOpen(s, f) then 1 else 0
  {
    if r :| r in s.rounds && s.rounds[r].farm == f && s.rounds[r].Open() {
      assert OpenOf(s, f) == {r};
    } else {
      assert OpenOf(s, f) == {};
    }
  }

  // ----- Declines run out -----

  // The agent holding a round covers the farm's LGA, as it did when the round was assigned.
  predicate HolderEligible(s: Desk, r: Id) {
    r in s.rounds && (s.rounds[r].Held() ==> s.rounds[r].agent.Some? && s.rounds[r].agent.value in Eligible(s, r))
  }

  // An edit that gives farm `f` another LGA than it has, or than the edit read.
  predicate Moves(s: Desk, e: Event, f: Id) {
    && e.Edit? && e.session in s.farmReads && s.farmReads[e.session].id == f && f in s.farms
    && var seen := s.farmReads[e.session].row;
    && var to := if e.newLga.Some? then e.newLga.value else seen.lga;
    (to != seen.lga || to != s.farms[f].lga)
  }

  // The agents, and the LGA of the round's farm, stay as they are.
  predicate Settled(s: Desk, e: Event, r: Id) {
    !e.AgentSet? && (r in s.rounds ==> !Moves(s, e, s.rounds[r].farm))
  }

  lemma {:induction false} EligibleSame(s: Desk, t: Desk, r: Id)
    requires r in s.rounds && r in t.rounds && t.rounds[r].farm == s.rounds[r].farm
    requires s.rounds[r].farm in s.farms && s.rounds[r].farm in t.farms
    requires t.farms[s.rounds[r].farm].lga == s.farms[s.rounds[r].farm].lga && t.agents == s.agents
    requires forall a :: (r, a) in t.declines <==> (r, a) in s.declines
    ensures Eligible(t, r) == Eligible(s, r)
  {
  }

  /**
   * A decline uses its agent up: none but the others stay eligible, and whoever gets the round next is one of
   * them. An agent who has left the LGA since the round was assigned was not among the eligible to begin with.
   */
  lemma DeclineUsesUp(s: Desk, r: Id, a: Id)
    requires Valid(s) && Decline(s, r, a).Ok?
    ensures var t := Decline(s, r, a).value;
            && r in t.rounds && HolderEligible(t, r) && Eligible(t, r) == Eligible(s, r) - {a}
            && |Eligible(t, r)| == |Eligible(s, r)| - (if HolderEligible(s, r) then 1 else 0)
            && (t.rounds[r].status.Unassigned? ==> Eligible(t, r) == {})
  {
    hide Assign;
    var u := Reset(s, r).(declines := s.declines + {(r, a)});
    var t := Decline(s, r, a).value;
    assert RoundFits(s, r, s.rounds[r]);
    assert Eligible(u, r) == Eligible(s, r) - {a};
    AssignHands(u, r, None);
    EligibleSame(u, t, r);
  }

  ghost function DeclinesOf(s: Desk, r: Id, events: seq<Event>): nat {
    if events == [] then 0
    else
      var n := |events| - 1;
      var before := Run(s, events[..n]);
      DeclinesOf(s, r, events[..n]) + if events[n].Declined? && events[n].round == r && Apply(before, events[n]).Ok? then 1 else 0
  }

  // Whatever else happens to a round while agents and farms stay put, nobody new becomes eligible for it.
  ghost predicate KeepsEligible(s: Desk, t: Desk, r: Id) {
    r in t.rounds && r in s.rounds && (HolderEligible(s, r) ==> HolderEligible(t, r)) && Eligible(t, r) == Eligible(s, r)
  }

  lemma HandedKeepsEligible(s: Desk, t: Desk, q: Id, r: Id)
    requires Valid(s) && r in s.rounds && Handed(s, t, q)
    requires q == r && HolderEligible(s, r) && t.rounds[r].Held() ==>
               t.rounds[r].agent.Some? && t.rounds[r].agent.value in Eligible(s, r)
    ensures KeepsEligible(s, t, r)
  {
    assert RoundFits(s, r, s.rounds[r]);
    EligibleSame(s, t, r);
  }

  lemma AssignKeepsEligible(s: Desk, q: Id, r: Id, preferred: Option<Id>)
    requires Valid(s) && r in s.rounds
    ensures KeepsEligible(s, Assign(s, q, preferred), r)
  {
    hide Assign, Eligible;
    AssignHands(s, q, preferred);
    HandedKeepsEligible(s, Assign(s, q, preferred), q, r);
  }

  lemma {:induction false} AssignAllKeepsEligible(s: Desk, waiting: seq<Id>, r: Id)
    requires Valid(s) && r in s.rounds
    ensures KeepsEligible(s, AssignAll(s, waiting), r)
  {
    hide Valid, Assign, Eligible;
    if waiting != [] {
      var n := |waiting| - 1;
      AssignAllKeepsEligible(s, waiting[..n], r);
      AssignAllKeeps(s, waiting[..n]);
      AssignKeepsEligible(AssignAll(s, waiting[..n]), waiting[n], r, None);
    }
  }

  lemma InsertKeepsEligible(s: Desk, owner: Id, lga: Id, preferred: Option<Id>, r: Id)
    requires Valid(s) && r in s.rounds && InsertFarm(s, owner, lga, preferred).Ok?
    ensures KeepsEligible(s, InsertFarm(s, owner, lga, preferred).value, r)
  {
    hide Assign;
    var t := s.(farms := s.farms[s.next := Farm(owner, lga, FarmStatus.Pending, None)], next := s.next + 1);
    assert RoundFits(s, r, s.rounds[r]);
    assert FarmFits(s, s.rounds[r].farm);
    NewFarmAwaits(s, t);
    AddedKeeps(t, s.next);
    var u := Added(t, s.next);
    EligibleSame(s, u, r);
    AssignKeepsEligible(u, t.next, r, preferred);
  }

  lemma DecisionKeepsEligible(s: Desk, t: Desk, q: Id, r: Id)
    requires Valid(s) && r in s.rounds && q in s.rounds && q in t.rounds && s.rounds[q].farm in s.farms
    requires s.rounds[q].farm in t.farms && t == s.(rounds := s.rounds[q := t.rounds[q]], farms := t.farms)
    requires t.farms == s.farms[s.rounds[q].farm := t.farms[s.rounds[q].farm]]
    requires t.farms[s.rounds[q].farm].lga == s.farms[s.rounds[q].farm].lga
    requires t.rounds[q].farm == s.rounds[q].farm && !t.rounds[q].Held()
    ensures KeepsEligible(s, t, r)
  {
    assert RoundFits(s, r, s.rounds[r]);
    EligibleSame(s, t, r);
  }

  lemma OtherDeclineKeepsEligible(s: Desk, q: Id, a: Id, r: Id)
    requires Valid(s) && r in s.rounds && q != r && Decline(s, q, a).Ok?
    ensures KeepsEligible(s, Decline(s, q, a).value, r)
  {
    hide Assign;
    var u := Reset(s, q).(declines := s.declines + {(q, a)});
    assert RoundFits(s, r, s.rounds[r]);
    assert RoundFits(s, q, s.rounds[q]);
    ClearedKeeps(s, q, s.declines + {(q, a)});
    EligibleSame(s, u, r);
    AssignKeepsEligible(u, q, r, None);
  }

  lemma StartOverKeepsEligible(s: Desk, f: Id, r: Id)
    requires Valid(s) && r in s.rounds && HasOpen(s, f) && s.rounds[r].farm != f
    ensures KeepsEligible(s, StartOver(s, f), r)
  {
    hide Assign;
    StartOverIs(s, f);
    var q := Max(OpenOf(s, f));
    var declines := set d | d in s.declines && d.0 != q;
    var u := Reset(s, q).(declines := declines);
    assert RoundFits(s, r, s.rounds[r]);
    ClearedKeeps(s, q, declines);
    EligibleSame(s, u, r);
    AssignKeepsEligible(u, q, r, None);
  }

  lemma FarmKeepsEligible(s: Desk, f: Id, row: Farm, r: Id)
    requires Valid(s) && r in s.rounds && f in s.farms && (s.rounds[r].farm == f ==> row.lga == s.farms[f].lga)
    ensures KeepsEligible(s, s.(farms := s.farms[f := row]), r)
  {
    assert RoundFits(s, r, s.rounds[r]);
    EligibleSame(s, s.(farms := s.farms[f := row]), r);
  }

  lemma ReopenKeepsEligible(s: Desk, f: Id, row: Farm, preferred: Option<Id>, r: Id)
    requires Valid(s) && r in s.rounds && f in s.farms && (s.rounds[r].farm == f ==> row.lga == s.farms[f].lga)
    requires row.status.Pending? && row.cluster.None?
    ensures var pending := s.(farms := s.farms[f := row]);
            OpenRound(pending, f, preferred).Ok? ==> KeepsEligible(s, OpenRound(pending, f, preferred).value, r)
  {
    hide Assign, Eligible, FarmFits, RoundFits;
    var pending := s.(farms := s.farms[f := row]);
    FarmEdit(s, f, row);
    FarmKeepsEligible(s, f, row, r);
    if !HasOpen(pending, f) {
      var u := Added(pending, f);
      AddedKeeps(pending, f);
      AddedKeepsEligible(pending, f, r);
      AssignKeepsEligible(u, pending.next, r, preferred);
    }
  }

  lemma AddedKeepsEligible(s: Desk, f: Id, r: Id)
    requires r in s.rounds && (forall q | q in s.rounds :: RoundFits(s, q, s.rounds[q]))
    ensures KeepsEligible(s, Added(s, f), r)
  {
    assert RoundFits(s, r, s.rounds[r]);
    NextIsFree(s);
    EligibleSame(s, Added(s, f), r);
  }

  lemma EditKeepsEligible(s: Desk, session: Id, lga: Option<Id>, addressChanged: bool, r: Id)
    requires Valid(s) && r in s.rounds && UpdateFarm(s, session, lga, addressChanged).Ok?
    requires !Moves(s, Edit(session, lga, addressChanged), s.rounds[r].farm)
    ensures KeepsEligible(s, UpdateFarm(s, session, lga, addressChanged).value, r)
  {
    hide Valid, OpenRound, StartOver, HasOpen, Eligible, LastAgent;
    var Read(f, seen) := s.farmReads[session];
    var to := if lga.Some? then lga.value else seen.lga;
    var reopen := seen.status.Rejected? || (seen.status.Verified? && (to != seen.lga || addressChanged));
    if reopen {
      var row := s.farms[f].(lga := to, status := FarmStatus.Pending, cluster := None);
      ReopenKeepsEligible(s, f, row, if to != seen.lga then None else LastAgent(s, f), r);
    } else {
      var moved := s.(farms := s.farms[f := s.farms[f].(lga := to)]);
      FarmKeepsEligible(s, f, s.farms[f].(lga := to), r);
      MoveKeeps(s, f, to);
      SameRounds(s, moved, f);
      if to != seen.lga && HasOpen(moved, f) {
        StartOverKeepsEligible(moved, f, r);
      }
    }
  }

  lemma StepKeepsEligible(s: Desk, e: Event, r: Id)
    requires Valid(s) && r in s.rounds && Settled(s, e, r) && !(e.Declined? && e.round == r)
    ensures KeepsEligible(s, After(s, e), r)
  {
    hide Valid, InsertFarm, UpdateFarm, Decline, AssignAll, Eligible;
    EligibleOfItself(s, r);
    if Apply(s, e).Ok? {
      var t := After(s, e);
      match e
      case Insert(owner, lga, preferred) => InsertKeepsEligible(s, owner, lga, preferred, r);
      case ReadRow(session, f) => ReadKeepsEligible(s, session, f, r);
      case Edit(session, lga, addressChanged) => EditKeepsEligible(s, session, lga, addressChanged, r);
      case Recorded(q, a) => HandedKeepsEligible(s, t, q, r);
      case Declined(q, a) => OtherDeclineKeepsEligible(s, q, a, r);
      case Approved(q, a, complete) => DecisionKeepsEligible(s, t, q, r);
      case Rejected(q, a) => DecisionKeepsEligible(s, t, q, r);
      case Suspended(owner) => SuspendKeepsEligible(s, owner, r);
      case RetryJob(waiting) => AssignAllKeepsEligible(s, waiting, r);
    }
  }

  lemma EligibleOfItself(s: Desk, r: Id)
    requires r in s.rounds
    ensures KeepsEligible(s, s, r)
  {
  }

  lemma ReadKeepsEligible(s: Desk, session: Id, f: Id, r: Id)
    requires Valid(s) && r in s.rounds && ReadFarm(s, session, f).Ok?
    ensures KeepsEligible(s, ReadFarm(s, session, f).value, r)
  {
    assert RoundFits(s, r, s.rounds[r]);
    EligibleSame(s, ReadFarm(s, session, f).value, r);
  }

  lemma SuspendKeepsEligible(s: Desk, owner: Id, r: Id)
    requires Valid(s) && r in s.rounds
    ensures KeepsEligible(s, Suspend(s, owner), r)
  {
    assert RoundFits(s, r, s.rounds[r]);
    EligibleSame(s, Suspend(s, owner), r);
  }

  // One decline more may be left than there are eligible agents, if the holder is not one of them.
  function Extra(s: Desk, r: Id): nat
    requires r in s.rounds
  {
    if HolderEligible(s, r) then 0 else 1
  }

  /**
   * Declines run out. While the agents and the LGA of its farm stay as they are, a round is declined at
   * most once by each agent eligible for it, and once by a holder who has moved away since it was
   * assigned, whatever else happens in between.
   */
  lemma {:induction false} DeclinesRunOut(s: Desk, r: Id, events: seq<Event>)
    requires Valid(s) && r in s.rounds
    requires forall i | 0 <= i < |events| :: Settled(Run(s, events[..i]), events[i], r)
    ensures var t := Run(s, events);
            && r in t.rounds && Eligible(t, r) <= Eligible(s, r)
            && DeclinesOf(s, r, events) + |Eligible(t, r)| + Extra(t, r) <= |Eligible(s, r)| + Extra(s, r)
            && (HolderEligible(s, r) ==> DeclinesOf(s, r, events) + |Eligible(t, r)| == |Eligible(s, r)|)
  {
    hide Valid, After, Eligible, Decline;
    if events != [] {
      var n := |events| - 1;
      var before := Run(s, events[..n]);
      assert forall i | 0 <= i < n :: events[..n][..i] == events[..i];
      DeclinesRunOut(s, r, events[..n]);
      RunKeeps(s, events[..n]);
      LastStep(before, events[n], r);
    }
  }

  lemma LastStep(s: Desk, e: Event, r: Id)
    requires Valid(s) && r in s.rounds && Settled(s, e, r)
    ensures var t := After(s, e);
            var declined := if e.Declined? && e.round == r && Apply(s, e).Ok? then 1 else 0;
            && r in t.rounds && Eligible(t, r) <= Eligible(s, r)
            && declined + |Eligible(t, r)| + Extra(t, r) <= |Eligible(s, r)| + Extra(s, r)
            && (HolderEligible(s, r) ==> HolderEligible(t, r) && declined + |Eligible(t, r)| == |Eligible(s, r)|)
  {
    hide Valid, Eligible, Decline;
    if e.Declined? && e.round == r {
      if Apply(s, e).Ok? {
        DeclineUsesUp(s, r, e.agent);
      }
    } else {
      StepKeepsEligible(s, e, r);
    }
  }

  // ----- The retry job -----

  ghost predicate Waits(s: Desk, r: Id) {
    r in s.rounds && s.rounds[r].status.Unassigned?
  }

  lemma AssignLeaves(s: Desk, q: Id, r: Id)
    requires Valid(s) && r in s.rounds
    ensures var t := Assign(s, q, None);
            && r in t.rounds && Eligible(t, r) == Eligible(s, r)
            && (Waits(t, r) ==> Waits(s, r))
            && (q == r && Waits(t, r) ==> Eligible(t, r) == {})
  {
    hide Assign;
    AssignHands(s, q, None);
    assert RoundFits(s, r, s.rounds[r]);
    EligibleSame(s, Assign(s, q, None), r);
  }

  /** After the retry job, a round it was given still waits only if no agent is eligible for it. */
  lemma {:induction false} RetryLeavesNobody(s: Desk, waiting: seq<Id>, r: Id)
    requires Valid(s) && r in s.rounds
    ensures var t := AssignAll(s, waiting);
            && r in t.rounds && Eligible(t, r) == Eligible(s, r)
            && (r in waiting && Waits(t, r) ==> Eligible(t, r) == {})
  {
    hide Valid, Assign, Eligible, Waits;
    if waiting != [] {
      var n := |waiting| - 1;
      RetryLeavesNobody(s, waiting[..n], r);
      AssignAllKeeps(s, waiting[..n]);
      AssignLeaves(AssignAll(s, waiting[..n]), waiting[n], r);
      assert waiting == waiting[..n] + [waiting[n]];
    }
  }

  // How many of the rounds got an agent when their turn came.
  ghost function Assignments(s: Desk, waiting: seq<Id>): nat {
    if waiting == [] then 0
    else
      var before := AssignAll(s, waiting[..|waiting| - 1]);
      Assignments(s, waiting[..|waiting| - 1]) +
      if Assign(before, waiting[|waiting| - 1], None) != before then 1 else 0
  }

  // ----- Suspended farms -----

  /** An edit that read the farm as rejected, or as verified and moves it. */
  predicate Reopens(s: Desk, e: Event, f: Id) {
    && e.Edit? && e.session in s.farmReads && s.farmReads[e.session].id == f
    && var seen := s.farmReads[e.session].row;
    && var to := if e.newLga.Some? then e.newLga.value else seen.lga;
    (seen.status.Rejected? || (seen.status.Verified? && (to != seen.lga || e.addressChanged)))
  }

  lemma AssignFarms(s: Desk, r: Id, preferred: Option<Id>)
    ensures Assign(s, r, preferred).farms == s.farms
  {
    hide Assign;
    AssignHands(s, r, preferred);
  }

  lemma {:induction false} AssignAllFarms(s: Desk, waiting: seq<Id>)
    ensures AssignAll(s, waiting).farms == s.farms
  {
    hide Assign;
    if waiting != [] {
      AssignAllFarms(s, waiting[..|waiting| - 1]);
      AssignFarms(AssignAll(s, waiting[..|waiting| - 1]), waiting[|waiting| - 1], None);
    }
  }

  lemma OpenRoundFarms(s: Desk, f: Id, preferred: Option<Id>)
    ensures OpenRound(s, f, preferred).Ok? ==> OpenRound(s, f, preferred).value.farms == s.farms
  {
    hide Assign;
    AssignFarms(Added(s, f), s.next, preferred);
  }

  lemma StartOverFarms(s: Desk, f: Id)
    requires HasOpen(s, f)
    ensures StartOver(s, f).farms == s.farms
  {
    hide Assign;
    StartOverIs(s, f);
    var r := Max(OpenOf(s, f));
    AssignFarms(Reset(s, r).(declines := set d | d in s.declines && d.0 != r), r, None);
  }

  lemma EditFarms(s: Desk, session: Id, lga: Option<Id>, addressChanged: bool, f: Id)
    requires f in s.farms && s.farms[f].status.Suspended? && !HasOpen(s, f)
    ensures var t := After(s, Edit(session, lga, addressChanged));
            f in t.farms && (t.farms[f].status.Suspended? <==> !Reopens(s, Edit(session, lga, addressChanged), f))
  {
    hide OpenRound, StartOver, HasOpen, LastAgent;
    if session in s.farmReads {
      var Read(g, seen) := s.farmReads[session];
      if g in s.farms {
        var to := if lga.Some? then lga.value else seen.lga;
        var pending := s.(farms := s.farms[g := s.farms[g].(lga := to, status := FarmStatus.Pending, cluster := None)]);
        var moved := s.(farms := s.farms[g := s.farms[g].(lga := to)]);
        var preferred := if to != seen.lga then None else LastAgent(s, g);
        OpenRoundFarms(pending, g, preferred);
        OpenOnlyIfNone(pending, g, preferred);
        SameRounds(s, pending, f);
        SameRounds(s, moved, g);
        if HasOpen(moved, g) {
          StartOverFarms(moved, g);
        }
      }
    }
  }

  /**
   * A suspended farm with no open round stays suspended through everything but one thing: an edit decided
   * on the farm as it was before the suspension. An edit of the farm as it is never reopens it.
   */
  lemma SuspendedUntilStaleEdit(s: Desk, e: Event, f: Id)
    requires Valid(s) && f in s.farms && s.farms[f].status.Suspended? && !HasOpen(s, f)
    ensures f in After(s, e).farms && (After(s, e).farms[f].status.Suspended? <==> !Reopens(s, e, f))
  {
    hide Valid, UpdateFarm, OpenRound, Assign, Reset, HasOpen;
    match e
    case Edit(session, lga, addressChanged) => EditFarms(s, session, lga, addressChanged, f);
    case Insert(owner, lga, preferred) =>
      var t := s.(farms := s.farms[s.next := Farm(owner, lga, FarmStatus.Pending, None)], next := s.next + 1);
      OpenRoundFarms(t, s.next, preferred);
      FarmIsOld(s, f);
    case RetryJob(waiting) => AssignAllFarms(s, waiting);
    case Declined(r, a) =>
      if HeldBy(s, r, a) {
        AssignFarms(Reset(s, r).(declines := s.declines + {(r, a)}), r, None);
        ResetFarms(s, r);
      }
    case Approved(r, a, _) => NotDecided(s, r, a, f);
    case Rejected(r, a) => NotDecided(s, r, a, f);
    case _ =>
  }

  lemma FarmIsOld(s: Desk, f: Id)
    requires Valid(s) && f in s.farms
    ensures f < s.next
  {
  }

  lemma ResetFarms(s: Desk, r: Id)
    requires r in s.rounds
    ensures Reset(s, r).farms == s.farms
  {
  }

  lemma NotDecided(s: Desk, r: Id, a: Id, f: Id)
    requires !HasOpen(s, f)
    ensures HeldBy(s, r, a) ==> s.rounds[r].farm != f
  {
  }
}
