/**
 * The assignment and verification services as they run, each method one transaction over the tables,
 * proved to leave them as its step says and valid.
 */
module VerificationDesk {
  import opened Rows
  import opened Ids
  import opened PickAgent
  import opened Rounds
  import opened RoundProofs

  predicate Follows(before: Desk, after: Desk, refusal: Option<Error>, step: Result<Desk>) {
    match step
    case Ok(t) => refusal.None? && after == t
    case Refused(error) => refusal == Some(error) && after == before
  }

  class Service {
    var farms: map<Id, Farm>
    var rounds: map<Id, Round>
    var declines: set<(Id, Id)>
    var agents: map<Id, Agent>
    var farmReads: map<Id, Read<Farm>>
    var next: Id

    constructor (staff: map<Id, Agent>)
      ensures InOrder() && Tables() == Empty(staff)
    {
      farms, rounds, declines, agents, farmReads, next := map[], map[], {}, staff, map[], 0;
    }

    function Tables(): Desk
      reads this
    {
      Desk(farms, rounds, declines, agents, farmReads, next)
    }

    ghost predicate InOrder()
      reads this
    {
      Valid(Tables())
    }

    // Reports the agent exactly when the round changed hands.
    method AssignRound(r: Id, preferred: Option<Id>) returns (agent: Option<Id>)
      modifies this`rounds
      ensures Tables() == Assign(old(Tables()), r, preferred)
      ensures agent.Some? <==> Tables() != old(Tables())
    {
      hide Chosen, Eligible;
      if r !in rounds {
        return None;
      }
      ChosenIsEligible(Tables(), r, preferred);
      agent := Chosen(Tables(), r, preferred);
      if agent.None? {
        return None;
      }
      if !rounds[r].status.Unassigned? {
        return None;
      }
      rounds := rounds[r := rounds[r].(agent := agent, status := RoundStatus.Assigned)];
      assert rounds[r].status != old(rounds)[r].status;
    }

    method OpenNewRound(f: Id, preferred: Option<Id>) returns (refusal: Option<Error>)
      modifies this`rounds, this`next
      ensures Follows(old(Tables()), Tables(), refusal, OpenRound(old(Tables()), f, preferred))
    {
      hide Assign, HasOpen;
      if HasOpen(Tables(), f) {
        return Some(AlreadyOpen);
      }
      var r := next;
      rounds := rounds[r := Round(f, None, Unassigned)];
      next := next + 1;
      var agent := AssignRound(r, preferred);
      return None;
    }

    // The round is open and nobody's, so anybody eligible may get it; no other round moves.
    method ResetRound(r: Id)
      requires r in rounds
      modifies this`rounds
      ensures Tables() == Reset(old(Tables()), r)
      ensures rounds.Keys == old(rounds).Keys && forall q | q in rounds && q != r :: rounds[q] == old(rounds)[q]
      ensures rounds[r].farm == old(rounds)[r].farm && rounds[r].Open() && !rounds[r].Held() && rounds[r].agent.None?
      ensures Eligible(Tables(), r) == Eligible(old(Tables()), r)
    {
      rounds := rounds[r := rounds[r].(agent := None, status := Unassigned)];
    }

    /** Tries the rounds given in turn, counting those that changed hands. */
    method AssignWaiting(waiting: seq<Id>) returns (placed: nat)
      requires InOrder()
      modifies this`rounds
      ensures InOrder() && Tables() == AssignAll(old(Tables()), waiting)
      ensures placed == Assignments(old(Tables()), waiting)
      ensures forall r | r in waiting && r in rounds && rounds[r].status.Unassigned? :: Eligible(Tables(), r) == {}
    {
      hide Valid, Assign, Eligible;
      placed := 0;
      var i := 0;
      while i < |waiting|
        invariant 0 <= i <= |waiting|
        invariant Tables() == AssignAll(old(Tables()), waiting[..i])
        invariant placed == Assignments(old(Tables()), waiting[..i])
      {
        assert waiting[..i + 1][..i] == waiting[..i];
        var agent := AssignRound(waiting[i], None);
        if agent.Some? {
          placed := placed + 1;
        }
        i := i + 1;
      }
      assert waiting[..i] == waiting;
      AssignAllKeeps(old(Tables()), waiting);
      AllAsked(old(Tables()), waiting);
    }

    // ----- Farms -----

    method InsertNewFarm(owner: Id, lga: Id, preferred: Option<Id>) returns (refusal: Option<Error>)
      requires InOrder()
      modifies this`farms, this`rounds, this`next
      ensures InOrder() && Follows(old(Tables()), Tables(), refusal, InsertFarm(old(Tables()), owner, lga, preferred))
    {
      hide Valid, OpenRound;
      InsertFarmKeeps(Tables(), owner, lga, preferred);
      var f := next;
      farms := farms[f := Farm(owner, lga, FarmStatus.Pending, None)];
      next := next + 1;
      refusal := OpenNewRound(f, preferred);
    }

    // Does nothing to a farm without an open round.
    method ReassignOpenRound(f: Id)
      modifies this`rounds, this`declines
      ensures Tables() == if HasOpen(old(Tables()), f) then StartOver(old(Tables()), f) else old(Tables())
    {
      hide Assign, Reset;
      if HasOpen(Tables(), f) {
        StartOverIs(Tables(), f);
        var r := Max(OpenOf(Tables(), f));
        ResetTables(Tables(), r, set d | d in declines && d.0 != r);
        declines := set d | d in declines && d.0 != r;
        ResetRound(r);
        var agent := AssignRound(r, None);
      }
    }

    method EditFarm(session: Id, lga: Option<Id>, addressChanged: bool) returns (refusal: Option<Error>)
      requires InOrder()
      modifies this`farms, this`rounds, this`declines, this`next
      ensures InOrder()
      ensures Follows(old(Tables()), Tables(), refusal, UpdateFarm(old(Tables()), session, lga, addressChanged))
    {
      hide Valid, OpenRound, StartOver, HasOpen, LastAgent;
      if session !in farmReads {
        return Some(NotFound);
      }
      var Read(f, seen) := farmReads[session];
      if f !in farms {
        return Some(NotFound);
      }
      ghost var was := Tables();
      var to := if lga.Some? then lga.value else seen.lga;
      var lgaChanged := to != seen.lga;
      var reopen := seen.status.Rejected? || (seen.status.Verified? && (lgaChanged || addressChanged));
      if UpdateFarm(Tables(), session, lga, addressChanged).Ok? {
        UpdateFarmKeeps(Tables(), session, lga, addressChanged);
      }
      var previous := LastAgent(Tables(), f);
      var row := farms[f];
      if reopen {
        farms := farms[f := row.(lga := to, status := FarmStatus.Pending, cluster := None)];
        refusal := OpenNewRound(f, if lgaChanged then None else previous);
        if refusal.Some? {
          farms := farms[f := row];
          assert farms == was.farms;
        }
      } else {
        farms := farms[f := row.(lga := to)];
        SameRounds(was, Tables(), f);
        if lgaChanged {
          ReassignOpenRound(f);
        }
        refusal := None;
      }
    }

    // ----- Agents' decisions -----

    // The decline is recorded before the next agent is chosen, which rules this one out.
    method DeclineRound(r: Id, a: Id) returns (refusal: Option<Error>)
      requires InOrder()
      modifies this`rounds, this`declines
      ensures InOrder() && Follows(old(Tables()), Tables(), refusal, Decline(old(Tables()), r, a))
    {
      hide Valid, Assign;
      if r !in rounds || rounds[r].agent != Some(a) || !rounds[r].Held() {
        return Some(NotHeld);
      }
      DeclineKeeps(Tables(), r, a);
      declines := declines + {(r, a)};
      ResetRound(r);
      var agent := AssignRound(r, None);
      return None;
    }

    // Round and farm are decided together, or neither is.
    method ApproveRound(r: Id, a: Id, complete: bool) returns (refusal: Option<Error>)
      requires InOrder()
      modifies this`rounds, this`farms
      ensures InOrder() && Follows(old(Tables()), Tables(), refusal, Approve(old(Tables()), r, a, complete))
    {
      hide Valid;
      if r !in rounds || rounds[r].agent != Some(a) {
        return Some(NotFound);
      }
      if !complete {
        return Some(BadRequest);
      }
      if !rounds[r].Held() || rounds[r].farm !in farms {
        return Some(NotHeld);
      }
      ApproveKeeps(Tables(), r, a, complete);
      var f := rounds[r].farm;
      rounds := rounds[r := rounds[r].(status := RoundStatus.Approved)];
      farms := farms[f := farms[f].(status := FarmStatus.Verified, cluster := Some(a))];
      return None;
    }

    method RejectRound(r: Id, a: Id) returns (refusal: Option<Error>)
      requires InOrder()
      modifies this`rounds, this`farms
      ensures InOrder() && Follows(old(Tables()), Tables(), refusal, Reject(old(Tables()), r, a))
    {
      hide Valid;
      if r !in rounds || rounds[r].agent != Some(a) || !rounds[r].Held() || rounds[r].farm !in farms {
        return Some(NotHeld);
      }
      RejectKeeps(Tables(), r, a);
      var f := rounds[r].farm;
      rounds := rounds[r := rounds[r].(status := RoundStatus.Rejected)];
      farms := farms[f := farms[f].(status := FarmStatus.Rejected, cluster := None)];
      return None;
    }
  }

  lemma AllAsked(s: Desk, waiting: seq<Id>)
    requires Valid(s)
    ensures var t := AssignAll(s, waiting);
            forall r | r in waiting && r in t.rounds && t.rounds[r].status.Unassigned? :: Eligible(t, r) == {}
  {
    hide Valid, Assign, Eligible;
    var t := AssignAll(s, waiting);
    AssignAllRounds(s, waiting);
    forall r | r in waiting && r in t.rounds && t.rounds[r].status.Unassigned?
      ensures Eligible(t, r) == {}
    {
      RetryLeavesNobody(s, waiting, r);
    }
  }

  lemma {:induction false} AssignAllRounds(s: Desk, waiting: seq<Id>)
    ensures AssignAll(s, waiting).rounds.Keys == s.rounds.Keys
  {
    hide Assign;
    if waiting != [] {
      AssignAllRounds(s, waiting[..|waiting| - 1]);
      AssignHands(AssignAll(s, waiting[..|waiting| - 1]), waiting[|waiting| - 1], None);
    }
  }

  lemma ResetTables(s: Desk, r: Id, declines: set<(Id, Id)>)
    requires r in s.rounds
    ensures Reset(s.(declines := declines), r) == Reset(s, r).(declines := declines)
  {
  }
}
