/**
 * Verification rounds. A farm waiting to be verified has one open round, held by an agent of its LGA
 * or waiting for one; an agent who declines a round never gets it back while the farm stays in the LGA.
 */
module Rounds {
  import opened Rows
  import opened PickAgent
  import opened Ids

  datatype FarmStatus = Pending | Verified | Rejected | Suspended

  datatype RoundStatus = Unassigned | Assigned | InProgress | Approved | Rejected

  datatype Farm = Farm(owner: Id, lga: Id, status: FarmStatus, cluster: Option<Id>)

  datatype Round = Round(farm: Id, agent: Option<Id>, status: RoundStatus)
  {
    predicate Open() {
      status.Unassigned? || status.Assigned? || status.InProgress?
    }

    predicate Held() {
      status.Assigned? || status.InProgress?
    }
  }

  datatype Agent = Agent(verified: bool, lga: Id, createdAt: int)

  /** `farmReads` holds farms as farmers' edits read them before their transaction began. */
  datatype Desk = Desk(farms: map<Id, Farm>, rounds: map<Id, Round>, declines: set<(Id, Id)>, agents: map<Id, Agent>,
                       farmReads: map<Id, Read<Farm>>, next: Id)

  // ----- Assigning -----

  function Eligible(s: Desk, r: Id): set<Id>
    requires r in s.rounds
  {
    if s.rounds[r].farm !in s.farms then {}
    else
      set a | a in s.agents && s.agents[a].verified && s.agents[a].lga == s.farms[s.rounds[r].farm].lga &&
              (r, a) !in s.declines
  }

  function CandidateOf(s: Desk, a: Id): Candidate
    requires a in s.agents
  {
    Candidate(a, s.agents[a].createdAt, |set f | f in s.farms && s.farms[f].cluster == Some(a)|,
              |set r | r in s.rounds && s.rounds[r].agent == Some(a) && s.rounds[r].Held()|)
  }

  function CandidatesFrom(s: Desk, ids: seq<Id>): (all: seq<Candidate>)
    requires forall a | a in ids :: a in s.agents
    ensures |all| == |ids| && forall i | 0 <= i < |ids| :: all[i] == CandidateOf(s, ids[i])
  {
    if ids == [] then [] else CandidatesFrom(s, ids[..|ids| - 1]) + [CandidateOf(s, ids[|ids| - 1])]
  }

  function Chosen(s: Desk, r: Id, preferred: Option<Id>): Option<Id>
    requires r in s.rounds
  {
    AscendingIncreases(Eligible(s, r));
    Pick(CandidatesFrom(s, Ascending(Eligible(s, r))), preferred)
  }

  // Gives an unassigned round to the chosen agent; without one, nothing changes.
  function Assign(s: Desk, r: Id, preferred: Option<Id>): Desk {
    if r !in s.rounds then s
    else
      match Chosen(s, r, preferred)
      case None => s
      case Some(a) =>
        if !s.rounds[r].status.Unassigned? then s
        else s.(rounds := s.rounds[r := s.rounds[r].(agent := Some(a), status := RoundStatus.Assigned)])
  }

  predicate HasOpen(s: Desk, f: Id) {
    exists r | r in s.rounds :: s.rounds[r].farm == f && s.rounds[r].Open()
  }

  // A second open round of one farm is refused by the database.
  function OpenRound(s: Desk, f: Id, preferred: Option<Id>): Result<Desk> {
    if HasOpen(s, f) then Refused(AlreadyOpen)
    else
      var added := s.(rounds := s.rounds[s.next := Round(f, None, Unassigned)], next := s.next + 1);
      Ok(Assign(added, s.next, preferred))
  }

  function Reset(s: Desk, r: Id): Desk
    requires r in s.rounds
  {
    s.(rounds := s.rounds[r := s.rounds[r].(agent := None, status := Unassigned)])
  }

  function AssignAll(s: Desk, waiting: seq<Id>): Desk {
    if waiting == [] then s else Assign(AssignAll(s, waiting[..|waiting| - 1]), waiting[|waiting| - 1], None)
  }

  // ----- Farmers' steps -----

  function InsertFarm(s: Desk, owner: Id, lga: Id, preferred: Option<Id>): Result<Desk> {
    OpenRound(s.(farms := s.farms[s.next := Farm(owner, lga, FarmStatus.Pending, None)], next := s.next + 1), s.next, preferred)
  }

  function ReadFarm(s: Desk, session: Id, f: Id): Result<Desk> {
    if f !in s.farms then Refused(NotFound)
    else Ok(s.(farmReads := s.farmReads[session := Read(f, s.farms[f])]))
  }

  // The agent of the farm's newest round, by id.
  function LastAgent(s: Desk, f: Id): Option<Id> {
    var all := set r | r in s.rounds && s.rounds[r].farm == f;
    if all == {} then None else s.rounds[Max(all)].agent
  }

  /**
   * The edit looks only at the row it read: if that says rejected, or verified at another address, the farm
   * goes back to waiting with a new round; if only the LGA differs, a round already open begins afresh.
   */
  function UpdateFarm(s: Desk, session: Id, lga: Option<Id>, addressChanged: bool): Result<Desk> {
    if session !in s.farmReads then Refused(NotFound)
    else
      var Read(f, seen) := s.farmReads[session];
      if f !in s.farms then Refused(NotFound)
      else
        var to := if lga.Some? then lga.value else seen.lga;
        var lgaChanged := to != seen.lga;
        var reopen := seen.status.Rejected? || (seen.status.Verified? && (lgaChanged || addressChanged));
        if reopen then
          var pending := s.(farms := s.farms[f := s.farms[f].(lga := to, status := FarmStatus.Pending, cluster := None)]);
          OpenRound(pending, f, if lgaChanged then None else LastAgent(s, f))
        else
          var moved := s.(farms := s.farms[f := s.farms[f].(lga := to)]);
          if lgaChanged && HasOpen(s, f) then Ok(StartOver(moved, f)) else Ok(moved)
  }

  function OpenOf(s: Desk, f: Id): set<Id> {
    set r | r in s.rounds && s.rounds[r].farm == f && s.rounds[r].Open()
  }

  // The round forgets its holder and its declines before the new LGA's agents are considered.
  function StartOver(s: Desk, f: Id): Desk
    requires HasOpen(s, f)
  {
    assert exists r :: r in OpenOf(s, f) by {
      var r :| r in s.rounds && s.rounds[r].farm == f && s.rounds[r].Open();
      assert r in OpenOf(s, f);
    }
    var r := Max(OpenOf(s, f));
    Assign(Reset(s, r).(declines := set d | d in s.declines && d.0 != r), r, None)
  }

  // ----- Agents' steps -----

  predicate HeldBy(s: Desk, r: Id, a: Id) {
    r in s.rounds && s.rounds[r].agent == Some(a) && s.rounds[r].Held()
  }

  function Record(s: Desk, r: Id, a: Id): Result<Desk> {
    if !HeldBy(s, r, a) then Refused(NotHeld)
    else Ok(s.(rounds := s.rounds[r := s.rounds[r].(status := InProgress)]))
  }

  function Decline(s: Desk, r: Id, a: Id): Result<Desk> {
    if !HeldBy(s, r, a) then Refused(NotHeld)
    else Ok(Assign(Reset(s, r).(declines := s.declines + {(r, a)}), r, None))
  }

  function Approve(s: Desk, r: Id, a: Id, complete: bool): Result<Desk> {
    if r !in s.rounds || s.rounds[r].agent != Some(a) then Refused(NotFound)
    else if !complete then Refused(BadRequest)
    else if !HeldBy(s, r, a) || s.rounds[r].farm !in s.farms then Refused(NotHeld)
    else
      var f := s.rounds[r].farm;
      Ok(s.(rounds := s.rounds[r := s.rounds[r].(status := Approved)],
            farms := s.farms[f := s.farms[f].(status := FarmStatus.Verified, cluster := Some(a))]))
  }

  function Reject(s: Desk, r: Id, a: Id): Result<Desk> {
    if !HeldBy(s, r, a) || s.rounds[r].farm !in s.farms then Refused(NotHeld)
    else
      var f := s.rounds[r].farm;
      Ok(s.(rounds := s.rounds[r := s.rounds[r].(status := RoundStatus.Rejected)],
            farms := s.farms[f := s.farms[f].(status := FarmStatus.Rejected, cluster := None)]))
  }

  // ----- The admin's steps -----

  // Every farm of the farmer's, whatever its status; its cluster is kept.
  function Suspend(s: Desk, owner: Id): Desk {
    s.(farms := map f | f in s.farms ::
         if s.farms[f].owner == owner then s.farms[f].(status := Suspended) else s.farms[f])
  }

  function SetAgent(s: Desk, a: Id, row: Agent): Desk {
    s.(agents := s.agents[a := row])
  }
}
