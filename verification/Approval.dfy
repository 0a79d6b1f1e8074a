/**
 * Which orders an approval pays, read off the tables before and after it: exactly those delivered, paid for,
 * past the holding period and held back by nothing, of the farmers in the batch. No other event pays any.
 */
module Approval {
  import opened Rows
  import opened Payouts
  import opened Invariants
  import opened Evolution
  import opened Runs
  import opened Frames
  import Bystanders
  import PayoutProofs
  import Settlement

  /** The order is paid out by some payout that is under way or done. */
  predicate PaidOutIn(items: map<(Id, Id), Item>, o: Id) {
    exists i | i in items :: items[i].order == o && (items[i].status.Pending? || items[i].status.Succeeded?)
  }

  /** No refund of everything its buyer paid is under way or done. */
  predicate Kept(s: State, c: Id) {
    forall r | r in s.refunds && s.refunds[r].order.None? && !s.refunds[r].status.Failed? && s.refunds[r].payment in s.payments ::
      !(s.payments[s.refunds[r].payment].checkout == c && s.payments[s.refunds[r].payment].status.Succeeded?)
  }

  /** What has to hold of an order for its farmer to be paid now. */
  predicate Owed(s: State, config: Config, o: Id, now: int) {
    && o in s.orders
    && var order := s.orders[o];
    && order.status.Fulfilled? && order.fulfilledAt.Some? && order.fulfilledAt.value + config.payoutHoldMs <= now
    && order.checkout.Some? && order.checkout.value in s.checkouts && s.checkouts[order.checkout.value].status.Paid?
    && order.farmer in s.accounts && s.accounts[order.farmer] <= now
    && !PaidOutIn(s.items, o)
    && Kept(s, order.checkout.value)
  }

  lemma OwedIsEligible(s: State, config: Config, o: Id, now: int)
    ensures Owed(s, config, o, now) <==> Eligible(s, config, o, now)
  {
    LivePaidOut(s.items, o);
    if o in s.orders && s.orders[o].checkout.Some? {
      KeptIsWhole(s, s.orders[o].checkout.value);
    }
  }

  lemma LivePaidOut(items: map<(Id, Id), Item>, o: Id)
    ensures PaidOutIn(items, o) <==> LiveItem(items, o)
  {
  }

  lemma KeptIsWhole(s: State, c: Id)
    ensures Kept(s, c) <==> !WholeRefund(s.payments, s.refunds, c)
  {
  }

  // ----- One farmer, then a batch -----

  lemma OnePaysOwed(s: State, config: Config, farmer: Id, now: int, o: Id)
    requires forall i | i in s.items :: i.0 < s.next
    ensures var t := ApproveOne(s, config, farmer, now);
            PaidOutIn(t.items, o) <==>
              PaidOutIn(s.items, o) || (o in s.orders && s.orders[o].farmer == farmer && Owed(s, config, o, now))
  {
    hide Owed, Eligible, PaidOut, PaidOutIn;
    OwedIsEligible(s, config, o, now);
    var due := Due(s, config, farmer, now);
    assert o in due <==> o in s.orders && s.orders[o].farmer == farmer && Owed(s, config, o, now);
    if due != map[] {
      PaidOutUnion(s, farmer, due, o);
    }
  }

  lemma PaidOutUnion(s: State, farmer: Id, due: map<Id, Order>, o: Id)
    requires forall i | i in s.items :: i.0 < s.next
    ensures PaidOutIn(PaidOut(s, farmer, due).items, o) <==> PaidOutIn(s.items, o) || o in due
  {
    hide Total, NewItems;
    var t := PaidOut(s, farmer, due);
    PayoutProofs.NewItemsAre(due, s.next);
    if i :| i in s.items && s.items[i].order == o && s.items[i].Live() {
      assert i in t.items && t.items[i] == s.items[i];
    }
    if o in due {
      assert (s.next, o) in t.items;
    }
  }

  // Approving leaves orders and everything an order's being owed depends on, but items, alone.
  lemma StillOwed(s: State, config: Config, farmers: seq<Id>, now: int, o: Id)
    ensures var t := Payouts.Approve(s, config, farmers, now);
            && t.orders == s.orders
            && (!PaidOutIn(t.items, o) && !PaidOutIn(s.items, o) ==> (Owed(t, config, o, now) <==> Owed(s, config, o, now)))
  {
    hide Payouts.Approve, PaidOutIn;
    ApproveWrites(config, s, farmers, now);
  }

  lemma {:induction false} BatchPaysOwed(s: State, config: Config, farmers: seq<Id>, now: int, o: Id)
    requires Inv(s)
    ensures var t := Payouts.Approve(s, config, farmers, now);
            PaidOutIn(t.items, o) <==>
              PaidOutIn(s.items, o) || (o in s.orders && s.orders[o].farmer in farmers && Owed(s, config, o, now))
  {
    hide Inv, ApproveOne, PaidOutIn, Kept;
    if farmers != [] {
      var n := |farmers| - 1;
      var before := Payouts.Approve(s, config, farmers[..n], now);
      BatchPaysOwed(s, config, farmers[..n], now, o);
      PayoutProofs.ApproveKeeps(s, config, farmers[..n], now);
      Settlement.KeysFresh(before);
      OnePaysOwed(before, config, farmers[n], now, o);
      StillOwed(s, config, farmers[..n], now, o);
      assert farmers == farmers[..n] + [farmers[n]];
    }
  }

  lemma {:induction false} OldItemsKept(s: State, config: Config, farmers: seq<Id>, now: int)
    requires Inv(s)
    ensures var t := Payouts.Approve(s, config, farmers, now);
            && (forall i | i in s.items :: i in t.items && t.items[i] == s.items[i])
            && (forall p | p in s.payouts :: p in t.payouts && t.payouts[p] == s.payouts[p])
  {
    hide Inv, ApproveOne;
    if farmers != [] {
      var n := |farmers| - 1;
      var before := Payouts.Approve(s, config, farmers[..n], now);
      OldItemsKept(s, config, farmers[..n], now);
      PayoutProofs.ApproveKeeps(s, config, farmers[..n], now);
      Settlement.KeysFresh(before);
      Settlement.PayoutFresh(before);
      OneKeepsOld(before, config, farmers[n], now);
    }
  }

  lemma OneKeepsOld(s: State, config: Config, farmer: Id, now: int)
    requires (forall i | i in s.items :: i.0 < s.next) && s.next !in s.payouts
    ensures var t := ApproveOne(s, config, farmer, now);
            && (forall i | i in s.items :: i in t.items && t.items[i] == s.items[i])
            && (forall p | p in s.payouts :: p in t.payouts && t.payouts[p] == s.payouts[p])
  {
    hide Eligible, Total, NewItems;
    PayoutProofs.NewItemsAre(Due(s, config, farmer, now), s.next);
  }

  // ----- Every event -----

  /** The order has a live item after an event that it did not have before. */
  predicate GetsPaid(s: State, t: State, o: Id) {
    exists i | i in t.items :: NewlyPays(s, t, i, o)
  }

  predicate NewlyPays(s: State, t: State, i: (Id, Id), o: Id)
    requires i in t.items
  {
    t.items[i].order == o && t.items[i].Live() && !(i in s.items && s.items[i].Live())
  }

  // An order paid out already gets no second payout.
  lemma NoSecond(s: State, t: State, o: Id)
    requires OneLiveItem(t.items) && (forall i | i in s.items :: i in t.items && t.items[i] == s.items[i])
    ensures GetsPaid(s, t, o) <==> PaidOutIn(t.items, o) && !PaidOutIn(s.items, o)
  {
    if PaidOutIn(t.items, o) && !PaidOutIn(s.items, o) {
      var i :| i in t.items && t.items[i].order == o && (t.items[i].status.Pending? || t.items[i].status.Succeeded?);
      assert NewlyPays(s, t, i, o);
    }
  }

  // Items only go from being paid to not, unless they are made by an approval.
  lemma OthersPayNobody(config: Config, s: State, e: Event, o: Id)
    requires Inv(s) && !(e.Money? && e.money.Approve?)
    ensures !GetsPaid(s, After(config, s, e), o)
  {
    hide Inv, After;
    hide OrdersEvolve, CheckoutsEvolve, PaymentsEvolve, RefundsEvolve, PayoutsEvolve, RequestsEvolve;
    StepKeeps(config, s, e);
    if e.Money? && e.money.Refund? {
      EventWrites(config, s, e);
      assert After(config, s, e).items == s.items;
    } else {
      Bystanders.OthersStandBy(config, s, e);
    }
  }

  /**
   * Of all events, only an approval pays out an order, and it pays exactly the orders of the farmers named that
   * were delivered at least the holding period ago, in a paid checkout nobody was refunded in full for, are not
   * being paid out already, and whose farmer's account is not on hold.
   */
  lemma OnlyApprovalPays(config: Config, s: State, e: Event, o: Id)
    requires Reachable(config, s)
    ensures GetsPaid(s, After(config, s, e), o) <==>
              && e.Money? && e.money.Approve? && Owed(s, config, o, e.money.now) && s.orders[o].farmer in e.money.farmers
  {
    hide Reachable, Inv, Owed, GetsPaid, PaidOutIn, Payouts.Approve;
    ReachableOk(config, s);
    if e.Money? && e.money.Approve? {
      var t := Payouts.Approve(s, config, e.money.farmers, e.money.now);
      BatchPaysOwed(s, config, e.money.farmers, e.money.now, o);
      OldItemsKept(s, config, e.money.farmers, e.money.now);
      PayoutProofs.ApproveKeeps(s, config, e.money.farmers, e.money.now);
      PayoutProofs.PayoutTables(t);
      NoSecond(s, t, o);
      OwedIsUnpaid(s, config, o, e.money.now);
    } else {
      OthersPayNobody(config, s, e, o);
    }
  }

  lemma OwedIsUnpaid(s: State, config: Config, o: Id, now: int)
    ensures Owed(s, config, o, now) ==> o in s.orders && !PaidOutIn(s.items, o)
  {
  }
}
