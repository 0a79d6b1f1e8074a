/** What paying farmers keeps: no order twice, and every payout the sum of its items. */
module PayoutProofs {
  import opened Rows
  import opened Sums
  import Stock
  import opened Sourcing
  import opened Payouts
  import opened Invariants
  import opened Evolution

  // A change of payouts and their items alone.
  lemma PayoutsKeep(s: State, payouts: map<Id, Payout>, items: map<(Id, Id), Item>, next: Id)
    requires Inv(s) && PayoutsOk(s.checkouts, s.orders, payouts, items)
    requires Excluded(s.orders, s.payments, s.refunds, items)
    requires PayoutsEvolve(s.payouts, payouts) && ItemsEvolve(s.items, items) && next >= s.next
    requires forall p | p in payouts :: p < next
    ensures var t := s.(payouts := payouts, items := items, next := next); Inv(t) && Evolves(s, t)
  {
    hide Stock.StockOk, CheckoutsOk, HandoversOk, PaymentsOk, RefundsOk, PayoutsOk, Excluded, RequestRefs;
    hide SyncedBut, CartsOk;
    hide OrdersEvolve, CheckoutsEvolve, PaymentsEvolve, RefundsEvolve, PayoutsEvolve, ItemsEvolve, RequestsEvolve;
    EvolvesReflexive(s);
  }

  lemma PayoutTables(s: State)
    requires Inv(s)
    ensures PayoutsOk(s.checkouts, s.orders, s.payouts, s.items)
    ensures Excluded(s.orders, s.payments, s.refunds, s.items) && (forall p | p in s.payouts :: p < s.next)
  {
    hide Stock.StockOk, CheckoutsOk, HandoversOk, ReadsOk, PaymentsOk, RefundsOk, PayoutsOk, Excluded, RequestRefs;
    hide SyncedBut, CartsOk;
  }

  // ----- Approving -----

  lemma NewItemsAre(due: map<Id, Order>, payout: Id)
    ensures forall k: (Id, Id) :: k in NewItems(due, payout) <==> k.0 == payout && k.1 in due
    ensures forall k | k in NewItems(due, payout) ::
              NewItems(due, payout)[k] == Item(payout, k.1, due[k.1].total, PayoutStatus.Pending)
  {
    forall k: (Id, Id) | k.0 == payout && k.1 in due
      ensures k in NewItems(due, payout)
    {
      assert k == (payout, k.1);
    }
  }

  lemma NewItemsWithout(items: map<(Id, Id), Item>, due: map<Id, Order>, payout: Id, key: (Id, Id))
    requires key.1 in due && key.0 == payout
    ensures items + NewItems(due, payout)
            == (items + NewItems(due - {key.1}, payout))[key := Item(payout, key.1, due[key.1].total, PayoutStatus.Pending)]
  {
    hide NewItems;
    NewItemsAre(due, payout);
    NewItemsAre(due - {key.1}, payout);
  }

  /** A payout's items add up to the orders due, and no other payout's sum moves. */
  lemma {:induction false} NewItemsSum(items: map<(Id, Id), Item>, due: map<Id, Order>, payout: Id, q: Id)
    requires forall o | o in due :: (payout, o) !in items
    ensures Sum(items + NewItems(due, payout), ItemsOf(q))
            == Sum(items, ItemsOf(q)) + (if q == payout then Sum(due, Totals()) else 0)
    decreases due.Keys
  {
    hide NewItems;
    if due == map[] {
      NewItemsAre(due, payout);
      assert items + NewItems(due, payout) == items;
    } else {
      var o :| o in due;
      var key: (Id, Id) := (payout, o);
      assert (due - {o}).Keys < due.Keys;
      NewItemsSum(items, due - {o}, payout, q);
      SumTake(due, Totals(), o);
      NewItemsWithout(items, due, payout, key);
      NewItemsAre(due - {o}, payout);
      SumInsert(items + NewItems(due - {o}, payout), ItemsOf(q), key,
                Item(payout, o, due[o].total, PayoutStatus.Pending));
    }
  }

  // What has to hold, when it commits, of a payout an admin approved.
  ghost predicate MayPay(s: State, farmer: Id, due: map<Id, Order>) {
    forall o | o in due ::
      && o in s.orders && SameFacts(due[o], s.orders[o]) && due[o].farmer == farmer && s.orders[o].status.Fulfilled?
      && PaidFor(s.checkouts, s.orders[o])
      && !WholeRefund(s.payments, s.refunds, s.orders[o].checkout.value)
      && !LiveItem(s.items, o)
  }

  predicate PaidFor(checkouts: map<Id, Checkout>, order: Order) {
    order.checkout.Some? && order.checkout.value in checkouts && checkouts[order.checkout.value].status.Paid?
  }

  lemma DueFits(s: State, farmer: Id, due: map<Id, Order>, o: Id)
    requires MayPay(s, farmer, due) && o in due
    ensures ItemFits(s.checkouts, s.orders, PaidOut(s, farmer, due).payouts,
                     Item(s.next, o, due[o].total, PayoutStatus.Pending))
  {
  }

  lemma OldFits(s: State, row: Payout, item: Item)
    requires ItemFits(s.checkouts, s.orders, s.payouts, item) && s.next !in s.payouts
    ensures ItemFits(s.checkouts, s.orders, s.payouts[s.next := row], item)
  {
  }

  lemma ItemKeys(s: State)
    requires PayoutsOk(s.checkouts, s.orders, s.payouts, s.items) && (forall p | p in s.payouts :: p < s.next)
    ensures forall i | i in s.items :: i.0 < s.next
  {
    forall i | i in s.items
      ensures i.0 < s.next
    {
      assert ItemFits(s.checkouts, s.orders, s.payouts, s.items[i]);
    }
  }

  lemma PaidOutItems(s: State, farmer: Id, due: map<Id, Order>)
    requires PayoutsOk(s.checkouts, s.orders, s.payouts, s.items) && (forall p | p in s.payouts :: p < s.next)
    requires MayPay(s, farmer, due)
    ensures OneLiveItem(s.items + NewItems(due, s.next)) && ItemsEvolve(s.items, s.items + NewItems(due, s.next))
  {
    hide ItemFits, NewItems, WholeRefund, PaidFor;
    ItemKeys(s);
    NewItemsAre(due, s.next);
    forall o | o in due
      ensures !LiveItem(s.items, o)
    {
    }
  }

  lemma PaidOutFits(s: State, farmer: Id, due: map<Id, Order>)
    requires PayoutsOk(s.checkouts, s.orders, s.payouts, s.items) && (forall p | p in s.payouts :: p < s.next)
    requires MayPay(s, farmer, due)
    ensures var t := PaidOut(s, farmer, due);
            forall i | i in t.items ::
              i == (t.items[i].payout, t.items[i].order) && ItemFits(t.checkouts, t.orders, t.payouts, t.items[i])
  {
    hide ItemFits, MayPay, OneLiveItem, NewItems;
    var t := PaidOut(s, farmer, due);
    NewItemsAre(due, s.next);
    forall i | i in t.items
      ensures i == (t.items[i].payout, t.items[i].order) && ItemFits(t.checkouts, t.orders, t.payouts, t.items[i])
    {
      if i in NewItems(due, s.next) {
        DueFits(s, farmer, due, i.1);
      } else {
        OldFits(s, t.payouts[s.next], s.items[i]);
      }
    }
  }

  lemma PaidOutSums(s: State, farmer: Id, due: map<Id, Order>)
    requires PayoutsOk(s.checkouts, s.orders, s.payouts, s.items) && (forall p | p in s.payouts :: p < s.next)
    ensures var t := PaidOut(s, farmer, due); forall p | p in t.payouts :: t.payouts[p].amount == Sum(t.items, ItemsOf(p))
  {
    hide ItemFits, OneLiveItem, NewItems, ItemsOf, Totals;
    var t := PaidOut(s, farmer, due);
    ItemKeys(s);
    forall p | p in t.payouts
      ensures t.payouts[p].amount == Sum(t.items, ItemsOf(p))
    {
      NewItemsSum(s.items, due, s.next, p);
      if p == s.next {
        NothingOf(s.items, p);
      }
    }
  }

  lemma PaidOutOk(s: State, farmer: Id, due: map<Id, Order>)
    requires PayoutsOk(s.checkouts, s.orders, s.payouts, s.items) && (forall p | p in s.payouts :: p < s.next)
    requires MayPay(s, farmer, due)
    ensures var t := PaidOut(s, farmer, due); PayoutsOk(t.checkouts, t.orders, t.payouts, t.items)
  {
    hide ItemFits, MayPay, OneLiveItem, NewItems;
    PaidOutItems(s, farmer, due);
    PaidOutFits(s, farmer, due);
    PaidOutSums(s, farmer, due);
  }

  lemma NothingOf(items: map<(Id, Id), Item>, p: Id)
    requires forall i | i in items :: i == (items[i].payout, items[i].order) && i.0 < p
    ensures Sum(items, ItemsOf(p)) == 0
  {
    forall i | i in items
      ensures ItemsOf(p)(items[i]) == 0
    {
      assert i.0 == items[i].payout;
    }
    SumZero(items, ItemsOf(p));
  }

  lemma PaidOutExcluded(s: State, farmer: Id, due: map<Id, Order>)
    requires Excluded(s.orders, s.payments, s.refunds, s.items) && MayPay(s, farmer, due)
    ensures Excluded(s.orders, s.payments, s.refunds, PaidOut(s, farmer, due).items)
  {
    hide WholeRefund, LiveItem, NewItems;
    NewItemsAre(due, s.next);
  }

  /** A payout that may be made when it commits keeps the ledger in order. */
  lemma PaidOutKeeps(s: State, farmer: Id, due: map<Id, Order>)
    requires Inv(s) && MayPay(s, farmer, due)
    ensures var t := PaidOut(s, farmer, due); Inv(t) && Evolves(s, t)
  {
    hide Inv, Evolves, PayoutsOk, Excluded, ItemsEvolve, MayPay, Total;
    EvolvesReflexive(s);
    var t := PaidOut(s, farmer, due);
    PayoutTables(s);
    PaidOutItems(s, farmer, due);
    PaidOutOk(s, farmer, due);
    PaidOutExcluded(s, farmer, due);
    PayoutsKeep(s, t.payouts, t.items, t.next);
  }

  lemma DueMay(s: State, config: Config, farmer: Id, now: int)
    ensures MayPay(s, farmer, Due(s, config, farmer, now))
  {
    hide WholeRefund, LiveItem;
  }

  lemma ApproveOneKeeps(s: State, config: Config, farmer: Id, now: int)
    requires Inv(s)
    ensures var t := ApproveOne(s, config, farmer, now); Inv(t) && Evolves(s, t)
  {
    hide Inv, Evolves, MayPay, Due, PaidOut;
    EvolvesReflexive(s);
    DueMay(s, config, farmer, now);
    PaidOutKeeps(s, farmer, Due(s, config, farmer, now));
  }

  lemma {:induction false} ApproveKeeps(s: State, config: Config, farmers: seq<Id>, now: int)
    requires Inv(s)
    ensures var t := Approve(s, config, farmers, now); Inv(t) && Evolves(s, t)
  {
    hide Inv, Evolves, ApproveOne;
    if farmers == [] {
      EvolvesReflexive(s);
    } else {
      var n := |farmers| - 1;
      var before := Approve(s, config, farmers[..n], now);
      ApproveKeeps(s, config, farmers[..n], now);
      ApproveOneKeeps(before, config, farmers[n], now);
      OrdersFresh(s);
      EvolvesTransitive(s, before, Approve(s, config, farmers, now));
    }
  }

  lemma OrdersFresh(s: State)
    requires Inv(s)
    ensures forall o | o in s.orders :: o < s.next
  {
    hide Stock.StockOk, CheckoutsOk, HandoversOk, ReadsOk, PaymentsOk, RefundsOk, PayoutsOk, Excluded, RequestRefs;
    hide SyncedBut, CartsOk;
  }

  // ----- Settling -----

  // Statuses move, items follow their payouts, and nothing comes back to life.
  ghost predicate Follow(payouts: map<Id, Payout>, items: map<(Id, Id), Item>, payouts': map<Id, Payout>,
                         items': map<(Id, Id), Item>)
  {
    && payouts'.Keys == payouts.Keys && items'.Keys == items.Keys
    && (forall p | p in payouts :: payouts'[p] == payouts[p].(status := payouts'[p].status)
          && PayoutReaches(payouts[p].status, payouts'[p].status))
    && (forall i | i in items && items[i].payout in payouts :: items'[i] == items[i].(status := payouts'[items[i].payout].status))
  }

  lemma FollowFits(checkouts: map<Id, Checkout>, orders: map<Id, Order>, payouts: map<Id, Payout>,
                   payouts': map<Id, Payout>, item: Item)
    requires ItemFits(checkouts, orders, payouts, item) && item.payout in payouts'
    requires payouts'[item.payout].farmer == payouts[item.payout].farmer
    ensures ItemFits(checkouts, orders, payouts', item.(status := payouts'[item.payout].status))
  {
  }

  lemma FollowOk(checkouts: map<Id, Checkout>, orders: map<Id, Order>, payouts: map<Id, Payout>,
                 items: map<(Id, Id), Item>, payouts': map<Id, Payout>, items': map<(Id, Id), Item>)
    requires PayoutsOk(checkouts, orders, payouts, items) && Follow(payouts, items, payouts', items')
    ensures PayoutsOk(checkouts, orders, payouts', items') && ItemsEvolve(items, items')
  {
    hide OneLiveItem;
    ItemsFollow(checkouts, orders, payouts, items, payouts', items');
    FollowOneLive(items, items');
    forall p | p in payouts'
      ensures payouts'[p].amount == Sum(items', ItemsOf(p))
    {
      SumSame(items, ItemsOf(p), items', ItemsOf(p));
    }
  }

  lemma ItemsFollow(checkouts: map<Id, Checkout>, orders: map<Id, Order>, payouts: map<Id, Payout>,
                    items: map<(Id, Id), Item>, payouts': map<Id, Payout>, items': map<(Id, Id), Item>)
    requires forall i | i in items :: ItemFits(checkouts, orders, payouts, items[i])
    requires Follow(payouts, items, payouts', items')
    ensures ItemsEvolve(items, items')
    ensures forall i | i in items :: ItemFits(checkouts, orders, payouts', items'[i])
  {
    forall i | i in items
      ensures items'[i] == items[i].(status := items'[i].status) && PayoutReaches(items[i].status, items'[i].status)
      ensures ItemFits(checkouts, orders, payouts', items'[i])
    {
      FollowFits(checkouts, orders, payouts, payouts', items[i]);
    }
  }

  lemma FollowOneLive(items: map<(Id, Id), Item>, items': map<(Id, Id), Item>)
    requires OneLiveItem(items) && items'.Keys == items.Keys && ItemsEvolve(items, items')
    ensures OneLiveItem(items')
  {
  }

  lemma FollowExcluded(orders: map<Id, Order>, payments: map<Id, Payment>, refunds: map<Id, Refund>,
                       items: map<(Id, Id), Item>, items': map<(Id, Id), Item>)
    requires Excluded(orders, payments, refunds, items) && items'.Keys == items.Keys && ItemsEvolve(items, items')
    ensures Excluded(orders, payments, refunds, items')
  {
    hide WholeRefund;
  }

  lemma FollowKeeps(s: State, payouts: map<Id, Payout>, items: map<(Id, Id), Item>)
    requires Inv(s) && Follow(s.payouts, s.items, payouts, items)
    ensures var t := s.(payouts := payouts, items := items); Inv(t) && Evolves(s, t)
  {
    hide Inv, Evolves, PayoutsOk, Excluded, ItemsEvolve;
    PayoutTables(s);
    FollowOk(s.checkouts, s.orders, s.payouts, s.items, payouts, items);
    FollowExcluded(s.orders, s.payments, s.refunds, s.items, items);
    PayoutsKeep(s, payouts, items, s.next);
    assert s.(payouts := payouts, items := items) == s.(payouts := payouts, items := items, next := s.next);
  }

  lemma ItemsMirror(s: State)
    requires Inv(s)
    ensures forall i | i in s.items ::
              s.items[i].payout in s.payouts && s.items[i].status == s.payouts[s.items[i].payout].status
  {
    hide Stock.StockOk, CheckoutsOk, HandoversOk, ReadsOk, PaymentsOk, RefundsOk, Excluded, RequestRefs;
    hide SyncedBut, CartsOk, OneLiveItem;
    forall i | i in s.items
      ensures s.items[i].payout in s.payouts && s.items[i].status == s.payouts[s.items[i].payout].status
    {
      assert ItemFits(s.checkouts, s.orders, s.payouts, s.items[i]);
    }
  }

  lemma RejectTransfersKeeps(s: State, ids: set<Id>)
    requires Inv(s)
    ensures var t := RejectTransfers(s, ids); Inv(t) && Evolves(s, t)
  {
    hide Inv, Evolves;
    ItemsMirror(s);
    FollowKeeps(s, RejectTransfers(s, ids).payouts, RejectTransfers(s, ids).items);
  }

  lemma SettlePayoutKeeps(s: State, p: Id, outcome: PayoutStatus)
    requires Inv(s) && SettlePayout(s, p, outcome).Ok?
    ensures var t := SettlePayout(s, p, outcome).value; Inv(t) && Evolves(s, t)
  {
    hide Inv, Evolves;
    ItemsMirror(s);
    EvolvesReflexive(s);
    if MaySettle(s.payouts[p].status, outcome) {
      var t := SettlePayout(s, p, outcome).value;
      FollowKeeps(s, t.payouts, t.items);
    }
  }
}
