/** How a sourcing request gains a live checkout: by its selection being confirmed, and in no other way. */
module Gaining {
  import opened Rows
  import opened Sourcing
  import SourcingProofs
  import Stock
  import Orders
  import opened Checkouts
  import Payments
  import opened Refunds
  import opened Payouts
  import opened Invariants
  import opened Evolution
  import opened Runs
  import Quote

  // No checkout is made or deleted.
  predicate SameCheckouts(s: State, t: State) {
    t.checkouts.Keys == s.checkouts.Keys
  }

  // A checkout that has ended does not come back to life, and none changes hands.
  lemma NoneRevived(before: map<Id, Checkout>, after: map<Id, Checkout>, r: Id)
    requires CheckoutsEvolve(before, after) && after.Keys == before.Keys && !HasLive(before, r)
    ensures !HasLive(after, r)
  {
  }

  // ----- What a placement adds -----

  // The request a placement was for gains its checkout, and no other request does.
  lemma PlaceGains(before: map<Id, Checkout>, c: Id, row: Checkout, r: Id)
    requires !HasLive(before, r) && row.status.AwaitingPayment? && c !in before
    ensures HasLive(before[c := row], r) <==> row.request == Some(r)
  {
    var after := before[c := row];
    if row.request == Some(r) {
      assert after[c].request == Some(r) && Live(after[c].status);
    }
  }

  lemma UnrequestedPlacing(config: Config, s: State, e: ShopEvent, r: Id)
    requires e.BuyNow? || e.PlaceOrders?
    requires ApplyShop(config, s, e).Ok? && !HasLive(s.checkouts, r) && s.next !in s.checkouts
    ensures !HasLive(ApplyShop(config, s, e).value.checkouts, r)
  {
    hide Place, HasKey, HasLive, AllOrderable;
    match e
    case BuyNow(draft, line, now) =>
      if !HasKey(s.checkouts, draft.buyer, draft.key) {
        var lost := Stock.OrderRefusal(s.listings, s.verified, line.listing);
        Quote.PlaceAdds(s, config, draft, [line], None, now, lost);
        PlaceGains(s.checkouts, s.next, Place(s, config, draft, [line], None, now, lost).value.checkouts[s.next], r);
      }
    case PlaceOrders(draft, now) =>
      if !HasKey(s.checkouts, draft.buyer, draft.key) {
        var lines := SortedLines(CartOf(s, draft.buyer));
        Quote.PlaceAdds(s, config, draft, lines, None, now, CartNeedsAttention);
        PlaceGains(s.checkouts, s.next, Place(s, config, draft, lines, None, now, CartNeedsAttention).value.checkouts[s.next], r);
      }
  }

  // ----- A confirmation -----

  /** A confirmation of `r` that goes through, by what can be seen before it; closing plays no part. */
  ghost predicate Confirms(s: State, config: Config, e: Event, r: Id) {
    && e.Shop? && e.shop.ConfirmRequest? && e.shop.request == r && r in s.requests
    && Quote.Unused(s.checkouts, s.requests[r].buyer, e.shop.draft.key)
    && Quote.SelectionReady(s, config, s.requests[r], e.shop.draft, e.shop.matching)
  }

  // Where the key is new, a confirmation places the selection or is refused.
  lemma ConfirmPlaces(s: State, config: Config, r: Id, draft: Draft, matching: set<Id>, now: int)
    requires r in s.requests && !HasKey(s.checkouts, s.requests[r].buyer, draft.key)
    requires Checkouts.ConfirmRequest(s, config, r, draft, matching, now).Ok?
    ensures var row := s.requests[r];
            var placed := Place(s, config, draft.(buyer := row.buyer), SortedLines(row.allocations), Some(r), now,
                                ListingNotEligible);
            placed.Ok? && Checkouts.ConfirmRequest(s, config, r, draft, matching, now).value == Sync(placed.value, Some(r))
  {
    hide Place, HasKey, HasLive, Sync, Selected, ListingEligible;
  }

  lemma ConfirmGains(config: Config, s: State, q: Id, draft: Draft, matching: set<Id>, now: int, r: Id)
    requires Checkouts.ConfirmRequest(s, config, q, draft, matching, now).Ok? && !HasLive(s.checkouts, r) && s.next !in s.checkouts
    ensures HasLive(Checkouts.ConfirmRequest(s, config, q, draft, matching, now).value.checkouts, r)
            <==> q == r && q in s.requests && !HasKey(s.checkouts, s.requests[q].buyer, draft.key)
  {
    hide Place, HasKey, HasLive, Sync, Selected, ListingEligible;
    if !HasKey(s.checkouts, s.requests[q].buyer, draft.key) {
      var row := s.requests[q];
      var mine, lines := draft.(buyer := row.buyer), SortedLines(row.allocations);
      ConfirmPlaces(s, config, q, draft, matching, now);
      var placed := Place(s, config, mine, lines, Some(q), now, ListingNotEligible).value;
      Quote.PlaceAdds(s, config, mine, lines, Some(q), now, ListingNotEligible);
      PlaceGains(s.checkouts, s.next, placed.checkouts[s.next], r);
      SourcingProofs.SyncTouchesStatusOnly(placed, Some(q));
    }
  }

  // ----- Everything else leaves the checkouts there are -----

  lemma SyncSame(s: State, r: Option<Id>)
    ensures Sync(s, r).checkouts == s.checkouts
  {
    hide Sync;
    SourcingProofs.SyncTouchesStatusOnly(s, r);
  }

  lemma ReleaseSame(s: State, c: Id, status: CheckoutStatus, r: Option<Id>)
    requires c in s.checkouts
    ensures SameCheckouts(s, Sync(Release(s, c, status), r))
  {
    hide Sync, Returned, WithOrders, WithoutPending;
    SyncSame(Release(s, c, status), r);
  }

  lemma EndingSame(config: Config, s: State, e: ShopEvent)
    requires e.CancelCheckout? || e.Expire? || e.CloseRequest?
    requires ApplyShop(config, s, e).Ok?
    ensures SameCheckouts(s, ApplyShop(config, s, e).value)
  {
    hide Sync, Release;
    match e
    case CancelCheckout(c, _) => ReleaseSame(s, c, CheckoutStatus.Cancelled, s.checkouts[c].request);
    case Expire(c, _) => ReleaseSame(s, c, Expired, s.checkouts[c].request);
    case CloseRequest(r) =>
      var closed := s.(requests := s.requests[r := s.requests[r].(closed := true)]);
      if exists c | c in s.checkouts :: AwaitingFor(s.checkouts[c], r) {
        forall c | c in s.checkouts && AwaitingFor(s.checkouts[c], r) {
          ReleaseSame(closed, c, CheckoutStatus.Cancelled, Some(r));
        }
      } else {
        SyncSame(closed, Some(r));
      }
  }

  lemma OtherShopSame(config: Config, s: State, e: ShopEvent)
    requires !e.BuyNow? && !e.PlaceOrders? && !e.ConfirmRequest? && !e.CancelCheckout? && !e.Expire? && !e.CloseRequest?
    requires ApplyShop(config, s, e).Ok?
    ensures SameCheckouts(s, ApplyShop(config, s, e).value)
  {
    hide Sync, Checked, Stock.Edited;
    match e
    case AssignAgent(r, agent, _) =>
      SyncSame(s.(requests := s.requests[r := s.requests[r].(agent := Some(agent))]), Some(r));
    case SaveAllocations(r, lines, matching) =>
      var items := Checked(s, lines, matching).value;
      SyncSame(s.(requests := s.requests[r := s.requests[r].(allocations := items)]), Some(r));
    case _ =>
  }

  lemma MovedSame(s: State, o: Id, row: Rows.Order)
    ensures Orders.Moved(s, o, row).checkouts == s.checkouts
  {
    hide Sync;
    SyncSame(s.(orders := s.orders[o := row]), RequestOf(s, row));
  }

  lemma OrderSame(s: State, e: OrderEvent)
    requires ApplyOrder(s, e).Ok?
    ensures SameCheckouts(s, ApplyOrder(s, e).value)
  {
    hide Orders.Moved, Stock.ReleaseStock, Stock.Restatused;
    forall t: State, o: Id, row: Rows.Order
      ensures Orders.Moved(t, o, row).checkouts == t.checkouts
    {
      MovedSame(t, o, row);
    }
  }

  lemma SettleSame(s: State, p: Id, r: Option<Id>)
    requires p in s.payments && s.payments[p].checkout in s.checkouts
    ensures SameCheckouts(s, Sync(Payments.Settle(s, p), r))
  {
    hide Sync, WithOrders;
    SyncSame(Payments.Settle(s, p), r);
  }

  lemma SidelinedSame(s: State, p: Id)
    requires p in s.payments
    ensures Payments.SendBack(s, p).checkouts == s.checkouts && Payments.FailPending(s, p).checkouts == s.checkouts
  {
  }

  lemma ChargeSame(s: State, charge: Payments.Charge)
    requires Payments.ApplyCharge(s, charge).Ok?
    ensures SameCheckouts(s, Payments.ApplyCharge(s, charge).value)
  {
    hide Sync, Payments.Orphan, Payments.Settle, Payments.SendBack, Payments.FailPending;
    var p := charge.payment;
    SidelinedSame(s, p);
    SettleSame(s, p, s.checkouts[s.payments[p].checkout].request);
  }

  lemma {:induction false} ApproveSame(config: Config, s: State, farmers: seq<Id>, now: int)
    ensures Payouts.Approve(s, config, farmers, now).checkouts == s.checkouts
  {
    hide Due, Total, NewItems;
    if farmers != [] {
      ApproveSame(config, s, farmers[..|farmers| - 1], now);
    }
  }

  lemma MoneySame(config: Config, s: State, e: MoneyEvent)
    requires ApplyMoney(config, s, e).Ok?
    ensures SameCheckouts(s, ApplyMoney(config, s, e).value)
  {
    hide Payments.ApplyCharge, WithoutPending, Payments.HasAttempt, Payouts.Approve, OrderAmount, LiveItemOn, Remaining;
    match e
    case Charged(charge) => ChargeSame(s, charge);
    case Approve(farmers, now) => ApproveSame(config, s, farmers, now);
    case _ =>
  }

  // ----- The one way -----

  /** Only a placement makes a checkout. */
  lemma OthersMakeNone(config: Config, s: State, e: Event)
    requires !(e.Shop? && (e.shop.BuyNow? || e.shop.PlaceOrders? || e.shop.ConfirmRequest?))
    ensures SameCheckouts(s, After(config, s, e))
  {
    hide ApplyShop, ApplyOrder, ApplyMoney;
    if Apply(config, s, e).Ok? {
      match e
      case Shop(x) =>
        if x.CancelCheckout? || x.Expire? || x.CloseRequest? {
          EndingSame(config, s, x);
        } else {
          OtherShopSame(config, s, x);
        }
      case Order(x) => OrderSame(s, x);
      case Money(x) => MoneySame(config, s, x);
    }
  }

  lemma OthersGainNothing(config: Config, s: State, e: Event, r: Id)
    requires Inv(s) && !HasLive(s.checkouts, r)
    requires !(e.Shop? && (e.shop.BuyNow? || e.shop.PlaceOrders? || e.shop.ConfirmRequest?))
    ensures !HasLive(After(config, s, e).checkouts, r)
  {
    hide Inv, After, HasLive;
    hide OrdersEvolve, CheckoutsEvolve, PaymentsEvolve, RefundsEvolve, PayoutsEvolve, ItemsEvolve, RequestsEvolve;
    StepKeeps(config, s, e);
    OthersMakeNone(config, s, e);
    NoneRevived(s.checkouts, After(config, s, e).checkouts, r);
  }

  lemma NextIsNew(s: State)
    requires Inv(s)
    ensures s.next !in s.checkouts
  {
    hide Stock.StockOk, CheckoutsOk, HandoversOk, ReadsOk, PaymentsOk, RefundsOk, PayoutsOk, Excluded, RequestRefs;
    hide SyncedBut, CartsOk;
  }

  lemma ClosedStays(config: Config, s: State, e: Event, r: Id)
    requires Inv(s) && r in s.requests && s.requests[r].closed
    ensures var t := After(config, s, e); r in t.requests && t.requests[r].closed && t.requests[r].status.Closed?
  {
    hide InvBut, Apply;
    hide OrdersEvolve, CheckoutsEvolve, PaymentsEvolve, RefundsEvolve, PayoutsEvolve, ItemsEvolve;
    StepKeeps(config, s, e);
    ClosedMeansClosed(After(config, s, e), r);
  }

  lemma ClosedMeansClosed(s: State, r: Id)
    requires Inv(s) && r in s.requests && s.requests[r].closed
    ensures s.requests[r].status.Closed?
  {
    hide Stock.StockOk, CheckoutsOk, HandoversOk, ReadsOk, PaymentsOk, RefundsOk, PayoutsOk, Excluded, RequestRefs;
    hide CartsOk, Has, PaidOrders;
    assert SyncedRow(s.requests[r], r, s.checkouts, s.orders);
  }

  /**
   * Of all that can happen, a request without a live checkout gains one exactly when its selection, ready and
   * quoted right, is confirmed with a key its buyer has not used. Being closed neither prevents that nor is
   * undone by it.
   */
  lemma OnlyConfirmingGains(config: Config, s: State, e: Event, r: Id)
    requires Reachable(config, s) && r in s.requests && !HasLive(s.checkouts, r)
    ensures HasLive(After(config, s, e).checkouts, r) <==> Confirms(s, config, e, r)
    ensures s.requests[r].closed ==>
              var t := After(config, s, e); r in t.requests && t.requests[r].closed && t.requests[r].status.Closed?
  {
    hide Reachable, Inv, ApplyOrder, ApplyMoney, HasLive, HasKey, Checkouts.BuyNow, Checkouts.PlaceOrders, Checkouts.ConfirmRequest;
    hide Quote.SelectionReady;
    ReachableOk(config, s);
    NextIsNew(s);
    if s.requests[r].closed {
      ClosedStays(config, s, e, r);
    }
    if Apply(config, s, e).Ok? {
      GainsIff(config, s, e, r);
    } else if e.Shop? && e.shop.ConfirmRequest? && e.shop.request == r {
      ConfirmRefused(s, config, e.shop, r);
    }
  }

  lemma ConfirmRefused(s: State, config: Config, e: ShopEvent, r: Id)
    requires e.ConfirmRequest? && e.request == r && r in s.requests && !HasLive(s.checkouts, r)
    requires Checkouts.ConfirmRequest(s, config, r, e.draft, e.matching, e.now).Refused?
    ensures !Confirms(s, config, Shop(e), r)
  {
    hide Checkouts.ConfirmRequest, HasLive, Quote.Unused, Quote.SelectionReady;
    if Quote.Unused(s.checkouts, s.requests[r].buyer, e.draft.key) {
      Quote.ConfirmIgnoresClosing(s, config, r, e.draft, e.matching, e.now);
    }
  }

  lemma GainsIff(config: Config, s: State, e: Event, r: Id)
    requires Inv(s) && s.next !in s.checkouts && r in s.requests && !HasLive(s.checkouts, r) && Apply(config, s, e).Ok?
    ensures HasLive(After(config, s, e).checkouts, r) <==> Confirms(s, config, e, r)
  {
    hide Inv, ApplyOrder, ApplyMoney, HasLive, HasKey, Quote.Unused, Checkouts.BuyNow, Checkouts.PlaceOrders, Checkouts.ConfirmRequest, Quote.SelectionReady;
    if e.Shop? && e.shop.ConfirmRequest? {
      var ConfirmRequest(q, draft, matching, now) := e.shop;
      ConfirmGains(config, s, q, draft, matching, now, r);
      Quote.UnusedIsNew(s.checkouts, s.requests[r].buyer, draft.key);
      if q == r && Quote.Unused(s.checkouts, s.requests[r].buyer, draft.key) {
        Quote.ConfirmIgnoresClosing(s, config, r, draft, matching, now);
      }
    } else if e.Shop? && (e.shop.BuyNow? || e.shop.PlaceOrders?) {
      UnrequestedPlacing(config, s, e.shop, r);
    } else {
      OthersGainNothing(config, s, e, r);
    }
  }
}
