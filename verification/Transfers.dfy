/** What becomes of a payout and its items once the provider has answered. */
module Transfers {
  import opened Rows
  import opened Payouts
  import opened Invariants
  import opened Evolution
  import opened Runs
  import opened Frames
  import PayoutProofs
  import Settlement
  import Approval

  /** Where an event leaves the status of a payout. */
  function PayoutAfter(s: State, e: Event, p: Id): PayoutStatus
    requires p in s.payouts
  {
    var was := s.payouts[p].status;
    if !e.Money? then was
    else
      match e.money
      case TransferSettled(q, outcome) =>
        if q == p && ((was.Pending? && !outcome.Pending?) || (was.Succeeded? && outcome.Reversed?)) then outcome else was
      case TransfersRejected(ids) => if p in ids && was.Pending? then PayoutStatus.Failed else was
      case _ => was
  }

  lemma SettledIs(config: Config, s: State, q: Id, outcome: PayoutStatus, p: Id)
    requires p in s.payouts
    ensures var e := Money(TransferSettled(q, outcome));
            var t := After(config, s, e);
            p in t.payouts && t.payouts[p] == s.payouts[p].(status := PayoutAfter(s, e, p))
  {
    if q in s.payouts {
      if MaySettle(s.payouts[q].status, outcome) {
        var t := SettlePayout(s, q, outcome).value;
        assert t.payouts == s.payouts[q := s.payouts[q].(status := outcome)];
      } else {
        assert SettlePayout(s, q, outcome) == Ok(s);
      }
    } else {
      assert SettlePayout(s, q, outcome) == Refused(NotFound);
    }
  }

  lemma RejectedIs(config: Config, s: State, ids: set<Id>, p: Id)
    requires p in s.payouts
    ensures var e := Money(TransfersRejected(ids));
            var t := After(config, s, e);
            p in t.payouts && t.payouts[p] == s.payouts[p].(status := PayoutAfter(s, e, p))
  {
    hide FailedItems;
  }

  lemma PayoutRow(config: Config, s: State, e: Event, p: Id)
    requires Inv(s) && p in s.payouts
    ensures var t := After(config, s, e); p in t.payouts && t.payouts[p] == s.payouts[p].(status := PayoutAfter(s, e, p))
  {
    hide Inv, ApplyShop, ApplyOrder, ApplyMoney;
    EventWrites(config, s, e);
    if e.Money? && e.money.TransferSettled? {
      SettledIs(config, s, e.money.payout, e.money.outcome, p);
    } else if e.Money? && e.money.TransfersRejected? {
      RejectedIs(config, s, e.money.payouts, p);
    } else if e.Money? && e.money.Approve? {
      ApprovedIs(config, s, e.money, p);
    }
  }

  lemma ApprovedIs(config: Config, s: State, e: MoneyEvent, p: Id)
    requires Inv(s) && e.Approve? && p in s.payouts
    ensures var t := After(config, s, Money(e));
            p in t.payouts && t.payouts[p] == s.payouts[p].(status := PayoutAfter(s, Money(e), p))
  {
    hide Inv, Payouts.Approve;
    Approval.OldItemsKept(s, config, e.farmers, e.now);
  }

  /**
   * A pending payout becomes whatever the provider reports, or failed if its whole batch was rejected; a
   * succeeded one can only be reversed; no other event moves a payout, nothing else about it ever changes, and
   * all its items go with it.
   */
  lemma PayoutMoves(config: Config, s: State, e: Event, p: Id)
    requires Reachable(config, s) && p in s.payouts
    ensures var t := After(config, s, e);
            && p in t.payouts && t.payouts[p] == s.payouts[p].(status := PayoutAfter(s, e, p))
            && (forall i | i in s.items && s.items[i].payout == p ::
                  i in t.items && t.items[i] == s.items[i].(status := PayoutAfter(s, e, p)))
  {
    hide Reachable, Inv, After, PayoutAfter;
    hide OrdersEvolve, CheckoutsEvolve, PaymentsEvolve, RefundsEvolve, PayoutsEvolve, RequestsEvolve;
    var t := After(config, s, e);
    ReachableOk(config, s);
    ReachableNext(config, s, e);
    PayoutRow(config, s, e, p);
    Settlement.PayoutsAddUp(config, t, p);
    StepKeeps(config, s, e);
  }

  lemma StaysPaid(s: State, t: State, p: Id)
    requires PayoutsEvolve(s.payouts, t.payouts) && p in s.payouts && s.payouts[p].status.Succeeded?
    ensures p in t.payouts && (t.payouts[p].status.Succeeded? || t.payouts[p].status.Reversed?)
  {
  }

  /**
   * Once a transfer of a pending payout is reported successful, the payout is SUCCEEDED from then on until it is
   * reversed, and as long as it is not, none of its orders is paid out by any other item.
   */
  lemma FateOfTransfer(config: Config, s: State, p: Id, events: seq<Event>, i: (Id, Id))
    requires Reachable(config, s) && p in s.payouts && s.payouts[p].status.Pending?
    requires i in s.items && s.items[i].payout == p
    ensures var t := Run(config, After(config, s, Money(TransferSettled(p, PayoutStatus.Succeeded))), events);
            && p in t.payouts && (t.payouts[p].status.Succeeded? || t.payouts[p].status.Reversed?)
            && (!t.payouts[p].status.Reversed? ==>
                  && i in t.items && t.items[i].status.Succeeded?
                  && forall j | j in t.items && t.items[j].order == s.items[i].order && t.items[j].Live() :: j == i)
  {
    hide Reachable, Inv, After, Run, PayoutsOk, ItemFits;
    hide OrdersEvolve, CheckoutsEvolve, PaymentsEvolve, RefundsEvolve, PayoutsEvolve, RequestsEvolve;
    var e := Money(TransferSettled(p, PayoutStatus.Succeeded));
    var u := After(config, s, e);
    var t := Run(config, u, events);
    ReachableOk(config, s);
    StepKeeps(config, s, e);
    RunKeeps(config, u, events);
    PayoutMoves(config, s, e, p);
    StaysPaid(u, t, p);
    PayoutProofs.PayoutTables(t);
    PayoutProofs.ItemsMirror(t);
    StillItsItem(s, u, t, i, p);
    OnlyLive(t, i);
  }

  lemma StillItsItem(s: State, u: State, t: State, i: (Id, Id), p: Id)
    requires i in s.items && s.items[i].payout == p && ItemsEvolve(u.items, t.items)
    requires i in u.items && u.items[i] == s.items[i].(status := u.items[i].status)
    ensures i in t.items && t.items[i].payout == p && t.items[i].order == s.items[i].order
  {
  }

  lemma OnlyLive(t: State, i: (Id, Id))
    requires PayoutsOk(t.checkouts, t.orders, t.payouts, t.items) && i in t.items
    ensures t.items[i].Live() ==> forall j | j in t.items && t.items[j].order == t.items[i].order && t.items[j].Live() :: j == i
  {
    hide ItemFits;
  }
}
