/** Handovers and payouts over whole runs. */
module Settlement {
  import opened Rows
  import opened Sums
  import Orders
  import opened Payouts
  import opened Invariants
  import opened Evolution
  import opened Runs
  import OrderProofs
  import PayoutProofs
  import Loops

  // ----- Orders, checklists and handovers -----

  /**
   * READY holds exactly while a handover is open, SHIPPED and FULFILLED exactly once it is done, and
   * from READY on every checklist item is ticked.
   */
  lemma HandoverAgrees(config: Config, s: State, o: Id)
    requires Reachable(config, s) && o in s.orders
    ensures var order := s.orders[o];
            && (order.status.Ready? <==> order.handover.Some? && !order.handover.value.status.HandedOver?)
            && (order.status.Shipped? || order.status.Fulfilled? <==>
                  order.handover.Some? && order.handover.value.status.HandedOver?)
            && (order.status.Ready? || order.status.Shipped? || order.status.Fulfilled? ==>
                  order.checklist.Some? && order.checklist.value.Complete())
  {
    hide Reachable, Inv;
    ReachableOk(config, s);
    OrderProofs.OrderFacts(s, o);
  }

  /** An order cannot stop being ready under a verified handover, so completing one never rolls back for that. */
  lemma CompleteNeverRollsBack(config: Config, s: State, o: Id, agent: Id)
    requires Reachable(config, s)
    ensures Orders.CompleteHandover(s, o, agent) != Refused(OrderNotReady)
  {
    hide Reachable, Inv, Orders.Moved;
    ReachableOk(config, s);
    if o in s.orders {
      OrderProofs.OrderFacts(s, o);
    }
  }

  /** While a farm is in a cluster, none of its open handovers waits for an agent. */
  lemma ClusteredHaveAgents(config: Config, s: State, o: Id)
    requires Reachable(config, s) && o in s.orders && s.orders[o].farm in s.clusters
    ensures s.orders[o].handover.Some? && !s.orders[o].handover.value.status.HandedOver? ==>
              s.orders[o].handover.value.agent.Some?
  {
    hide Reachable, Inv;
    ReachableOk(config, s);
    OrderProofs.OrderFacts(s, o);
  }

  // ----- Payouts -----

  /** No order is in two payouts that are pending or paid. */
  lemma NoDoublePayout(config: Config, s: State, i: (Id, Id), j: (Id, Id))
    requires Reachable(config, s) && i in s.items && j in s.items
    requires s.items[i].Live() && s.items[j].Live() && s.items[i].order == s.items[j].order
    ensures i == j
  {
    hide Reachable, Inv, ItemFits;
    ReachableOk(config, s);
    PayoutProofs.PayoutTables(s);
  }

  /** A payout is worth the sum of its items, and each item stands as its payout does. */
  lemma PayoutsAddUp(config: Config, s: State, p: Id)
    requires Reachable(config, s) && p in s.payouts
    ensures s.payouts[p].amount == Sum(s.items, ItemsOf(p))
    ensures forall i | i in s.items && s.items[i].payout == p :: s.items[i].status == s.payouts[p].status
  {
    hide Reachable, Inv, OneLiveItem, ItemFits;
    ReachableOk(config, s);
    PayoutProofs.PayoutTables(s);
    PayoutProofs.ItemsMirror(s);
  }

  /** Only delivered orders of paid checkouts are paid out, each for its own price and to its own farmer. */
  lemma ItemsPayForDelivery(config: Config, s: State, i: (Id, Id))
    requires Reachable(config, s) && i in s.items
    ensures var item := s.items[i];
            && item.order in s.orders && s.orders[item.order].status.Fulfilled?
            && item.amount == s.orders[item.order].total
            && item.payout in s.payouts && s.payouts[item.payout].farmer == s.orders[item.order].farmer
            && s.orders[item.order].checkout.Some? && s.orders[item.order].checkout.value in s.checkouts
            && s.checkouts[s.orders[item.order].checkout.value].status.Paid?
  {
    hide Reachable, Inv, OneLiveItem;
    ReachableOk(config, s);
    PayoutProofs.PayoutTables(s);
    assert ItemFits(s.checkouts, s.orders, s.payouts, s.items[i]);
  }

  /** A payout that failed or was reversed never comes back to life. */
  lemma DeadPayoutsStayDead(config: Config, s: State, events: seq<Event>, p: Id)
    requires Reachable(config, s) && p in s.payouts && (s.payouts[p].status.Failed? || s.payouts[p].status.Reversed?)
    ensures var t := Run(config, s, events); p in t.payouts && t.payouts[p] == s.payouts[p]
  {
    hide Reachable, Inv, Run, OrdersEvolve, CheckoutsEvolve, PaymentsEvolve, RefundsEvolve, ItemsEvolve, RequestsEvolve;
    ReachableOk(config, s);
    RunKeeps(config, s, events);
  }

  /** No reachable state has both a live refund of a whole payment and a live payout of an order it paid for. */
  lemma RefundOrPayout(config: Config, s: State, i: (Id, Id), r: Id)
    requires Reachable(config, s) && i in s.items && s.items[i].Live() && s.items[i].order in s.orders
    requires r in s.refunds && s.refunds[r].order.None? && s.refunds[r].Live()
    requires s.refunds[r].payment in s.payments && s.payments[s.refunds[r].payment].status.Succeeded?
    ensures s.orders[s.items[i].order].checkout != Some(s.payments[s.refunds[r].payment].checkout)
  {
    hide Reachable, Inv, PayoutsOk;
    ReachableOk(config, s);
    PayoutProofs.PayoutTables(s);
  }

  // ----- What an approval pays -----

  // Every order due gets a live item, and none of them is due any more.
  lemma PaidUp(s: State, config: Config, farmer: Id, now: int)
    requires forall i | i in s.items :: i.0 < s.next
    ensures var t := ApproveOne(s, config, farmer, now);
            && (forall o | o in Due(s, config, farmer, now) :: LiveItem(t.items, o))
            && Due(t, config, farmer, now) == map[]
  {
    hide WholeRefund, Total;
    var t := ApproveOne(s, config, farmer, now);
    var due := Due(s, config, farmer, now);
    PayoutProofs.NewItemsAre(due, s.next);
    forall o | o in due
      ensures LiveItem(t.items, o)
    {
      assert t.items[(s.next, o)].order == o;
    }
    forall o | o in Due(t, config, farmer, now)
      ensures false
    {
      StillDue(s, t, config, o, now);
    }
  }

  // More items make nothing due that was not.
  lemma StillDue(s: State, t: State, config: Config, o: Id, now: int)
    requires t == s.(payouts := t.payouts, items := t.items, next := t.next)
    requires forall i | i in s.items :: i in t.items && t.items[i] == s.items[i]
    requires Eligible(t, config, o, now)
    ensures Eligible(s, config, o, now)
  {
    hide WholeRefund;
  }

  lemma KeysFresh(s: State)
    requires Inv(s)
    ensures forall i | i in s.items :: i.0 < s.next
  {
    hide Inv, OneLiveItem, ItemFits;
    PayoutProofs.PayoutTables(s);
    PayoutProofs.ItemKeys(s);
  }

  /** A batch leaves nothing due to anybody in it, however often they are named. */
  lemma {:induction false} ApprovalClears(s: State, config: Config, farmers: seq<Id>, now: int, farmer: Id)
    requires Inv(s) && farmer in farmers
    ensures Due(Payouts.Approve(s, config, farmers, now), config, farmer, now) == map[]
  {
    hide Inv, ApproveOne, Due;
    var n := |farmers| - 1;
    var before := Payouts.Approve(s, config, farmers[..n], now);
    PayoutProofs.ApproveKeeps(s, config, farmers[..n], now);
    KeysFresh(before);
    if farmer == farmers[n] {
      PaidUp(before, config, farmer, now);
    } else {
      ApprovalClears(s, config, farmers[..n], now, farmer);
      Loops.DueOfOther(before, config, farmers[n], farmer, now);
    }
  }

  ghost function PaidTo(farmer: Id): Payout -> int {
    (payout: Payout) => if payout.farmer == farmer then payout.amount else 0
  }

  lemma OnePays(s: State, config: Config, farmer: Id, now: int, other: Id)
    requires s.next !in s.payouts
    ensures Sum(ApproveOne(s, config, farmer, now).payouts, PaidTo(other))
            == Sum(s.payouts, PaidTo(other)) + if other == farmer then Total(Due(s, config, farmer, now)) else 0
  {
    hide Due, Total;
    var due := Due(s, config, farmer, now);
    if due == map[] {
      NothingDue();
    } else {
      SumInsert(s.payouts, PaidTo(other), s.next, Payout(farmer, Total(due), PayoutStatus.Pending));
    }
  }

  lemma NothingDue()
    ensures Total(map[]) == 0
  {
  }

  lemma PayoutFresh(s: State)
    requires Inv(s)
    ensures s.next !in s.payouts
  {
    hide Inv, PayoutsOk;
    PayoutProofs.PayoutTables(s);
  }

  /** A batch pays every farmer in it what was due beforehand, once, and nobody else anything. */
  lemma {:induction false} ApprovalPays(s: State, config: Config, farmers: seq<Id>, now: int, farmer: Id)
    requires Inv(s)
    ensures Sum(Payouts.Approve(s, config, farmers, now).payouts, PaidTo(farmer))
            == Sum(s.payouts, PaidTo(farmer)) + if farmer in farmers then Total(Due(s, config, farmer, now)) else 0
  {
    hide Inv, ApproveOne, Due, Total, PaidTo;
    if farmers != [] {
      var n := |farmers| - 1;
      var before := Payouts.Approve(s, config, farmers[..n], now);
      ApprovalPays(s, config, farmers[..n], now, farmer);
      PayoutProofs.ApproveKeeps(s, config, farmers[..n], now);
      PayoutFresh(before);
      OnePays(before, config, farmers[n], now, farmer);
      if farmer in farmers[..n] {
        ApprovalClears(s, config, farmers[..n], now, farmer);
        NothingDue();
      } else {
        Loops.DueUntouched(s, config, farmers[..n], now, farmer);
      }
    }
  }
}
