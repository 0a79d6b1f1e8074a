/** Stock over whole runs: nothing is sold twice or lost, whatever stale rows the callers act on. */
module Conservation {
  import opened Rows
  import opened Sums
  import opened Stock
  import opened Invariants
  import opened Runs
  import Checkouts
  import Payments
  import Refunds
  import Payouts
  import Orders
  import Sourcing
  import SourcingProofs
  import StockProofs
  import Bystanders

  lemma ListingFacts(s: State, l: Id)
    requires Inv(s) && l in s.listings
    ensures ListingOk(s.listings[l], Sum(s.orders, HeldOn(l)), Sum(s.orders, CommittedOn(l)))
    ensures Sum(s.orders, HeldOn(l)) >= 0
  {
    hide CheckoutsOk, HandoversOk, ReadsOk, PaymentsOk, RefundsOk, PayoutsOk, Excluded, RequestRefs, SyncedBut, CartsOk;
    StockProofs.HeldNonNegative(s.orders, l);
  }

  /**
   * Stock is conserved in every reachable state: the two counters differ by exactly what unconfirmed
   * orders hold, `actual` and what confirmed orders took make up what the farmer supplied, and
   * neither counter is ever negative.
   */
  lemma StockConserved(config: Config, s: State, l: Id)
    requires Reachable(config, s) && l in s.listings
    ensures s.listings[l].actual - s.listings[l].floating == Sum(s.orders, HeldOn(l))
    ensures s.listings[l].actual + Sum(s.orders, CommittedOn(l)) == s.listings[l].supplied
    ensures 0 <= s.listings[l].floating <= s.listings[l].actual
  {
    hide Inv, Reachable, HeldOn, CommittedOn;
    ReachableOk(config, s);
    ListingFacts(s, l);
  }

  /** In every reachable state a published listing has something left and a sold-out one has nothing. */
  lemma StatusTracksStock(config: Config, s: State, l: Id)
    requires Reachable(config, s) && l in s.listings
    ensures s.listings[l].status.Published? ==> s.listings[l].floating > 0
    ensures s.listings[l].status.SoldOut? ==> s.listings[l].floating == 0
  {
    hide Inv, Reachable, HeldOn, CommittedOn;
    ReachableOk(config, s);
    ListingFacts(s, l);
  }

  /** Given conservation, testing `floating` alone decides the status; the test of `actual` never matters. */
  lemma ActualTestRedundant(config: Config, s: State, l: Id, status: ProduceStatus)
    requires Reachable(config, s) && l in s.listings
    ensures var row := s.listings[l];
            DeriveStatus(status, row.actual, row.floating) == DeriveStatus(status, row.floating, row.floating)
  {
    hide Inv, Reachable, HeldOn, CommittedOn;
    ReachableOk(config, s);
    ListingFacts(s, l);
  }

  // ----- Disabled listings -----

  /** The one kind of step that takes a listing out of DISABLED: an edit of a row read before the disable. */
  predicate Reopens(s: State, e: Event, l: Id)
    requires l in s.listings
  {
    && e.Shop? && e.shop.UpdateListing? && WellFormed(e.shop)
    && e.shop.session in s.listingReads && s.listingReads[e.shop.session].id == l
    && var seen := s.listingReads[e.shop.session].row;
    && !seen.status.Disabled?
    && seen.actual == s.listings[l].actual && seen.floating == s.listings[l].floating
    && (e.shop.actual.Some? ==> seen.floating + e.shop.actual.value - seen.actual >= 0)
    && (e.shop.newStatus.Some? ==> !e.shop.newStatus.value.Disabled?)
  }

  // Only the counters of a listing move, and its status with them unless it is a draft or disabled.
  predicate MovesStock(before: Listing, after: Listing) {
    && after == before.(actual := after.actual, floating := after.floating, status := after.status)
    && (before.status.Draft? || before.status.Disabled? ==> after.status == before.status)
  }

  ghost predicate OnlyStock(before: map<Id, Listing>, after: map<Id, Listing>) {
    forall l | l in before && l in after :: MovesStock(before[l], after[l])
  }

  lemma {:induction false} ReserveStays(listings: map<Id, Listing>, verified: set<Id>, lines: seq<Checkouts.Line>)
    requires Checkouts.ReserveAll(listings, verified, lines).Some?
    ensures OnlyStock(listings, Checkouts.ReserveAll(listings, verified, lines).value.listings)
    ensures Checkouts.ReserveAll(listings, verified, lines).value.listings.Keys == listings.Keys
  {
    if lines != [] {
      ReserveStays(listings, verified, lines[..|lines| - 1]);
    }
  }

  lemma PlaceStays(s: State, config: Config, draft: Checkouts.Draft, lines: seq<Checkouts.Line>, request: Option<Id>,
                   now: int, lost: Error)
    requires Checkouts.Place(s, config, draft, lines, request, now, lost).Ok?
    ensures OnlyStock(s.listings, Checkouts.Place(s, config, draft, lines, request, now, lost).value.listings)
    ensures s.listings.Keys == Checkouts.Place(s, config, draft, lines, request, now, lost).value.listings.Keys
  {
    hide OnlyStock;
    ReserveStays(s.listings, s.verified, lines);
  }

  lemma ReturnedStays(listings: map<Id, Listing>, orders: map<Id, Order>, c: Id)
    ensures OnlyStock(listings, Checkouts.Returned(listings, orders, c))
    ensures Checkouts.Returned(listings, orders, c).Keys == listings.Keys
  {
  }

  lemma ReleaseStockStays(listings: map<Id, Listing>, order: Order)
    ensures OnlyStock(listings, ReleaseStock(listings, order))
    ensures ReleaseStock(listings, order).Keys == listings.Keys
  {
  }

  lemma SameStays(listings: map<Id, Listing>)
    ensures OnlyStock(listings, listings)
  {
  }

  lemma PlacingStays(config: Config, s: State, e: ShopEvent)
    requires e.BuyNow? || e.PlaceOrders? || e.ConfirmRequest?
    requires ApplyShop(config, s, e).Ok?
    ensures OnlyStock(s.listings, ApplyShop(config, s, e).value.listings)
    ensures ApplyShop(config, s, e).value.listings.Keys == s.listings.Keys
  {
    hide Sourcing.Sync, Checkouts.Place, Sourcing.ListingEligible, Checkouts.Selected, MovesStock;
    SameStays(s.listings);
    match e
    case BuyNow(draft, line, now) =>
      if !Checkouts.HasKey(s.checkouts, draft.buyer, draft.key) {
        PlaceStays(s, config, draft, [line], None, now, OrderRefusal(s.listings, s.verified, line.listing));
      }
    case PlaceOrders(draft, now) =>
      if !Checkouts.HasKey(s.checkouts, draft.buyer, draft.key) {
        PlaceStays(s, config, draft, Checkouts.SortedLines(Checkouts.CartOf(s, draft.buyer)), None, now, CartNeedsAttention);
      }
    case ConfirmRequest(r, draft, matching, now) =>
      var row := s.requests[r];
      if !Checkouts.HasKey(s.checkouts, row.buyer, draft.key) {
        var lines, mine := Checkouts.SortedLines(row.allocations), draft.(buyer := row.buyer);
        PlaceStays(s, config, mine, lines, Some(r), now, ListingNotEligible);
        SourcingProofs.SyncTouchesStatusOnly(Checkouts.Place(s, config, mine, lines, Some(r), now, ListingNotEligible).value,
                                             Some(r));
      }
  }

  lemma ReleasedStays(s: State, t: State, c: Id, status: CheckoutStatus, r: Option<Id>)
    requires c in s.checkouts && t == Sourcing.Sync(Checkouts.Release(s, c, status), r)
    ensures OnlyStock(s.listings, t.listings) && t.listings.Keys == s.listings.Keys
  {
    hide OnlyStock, Sourcing.Sync, Checkouts.Returned;
    ReturnedStays(s.listings, s.orders, c);
    SourcingProofs.SyncTouchesStatusOnly(Checkouts.Release(s, c, status), r);
  }

  lemma ReleasingStays(config: Config, s: State, e: ShopEvent)
    requires e.CancelCheckout? || e.Expire? || e.CloseRequest?
    requires ApplyShop(config, s, e).Ok?
    ensures OnlyStock(s.listings, ApplyShop(config, s, e).value.listings)
    ensures ApplyShop(config, s, e).value.listings.Keys == s.listings.Keys
  {
    hide Sourcing.Sync, Checkouts.Release;
    var t := ApplyShop(config, s, e).value;
    match e
    case CancelCheckout(c, _) => ReleasedStays(s, t, c, CheckoutStatus.Cancelled, s.checkouts[c].request);
    case Expire(c, _) => ReleasedStays(s, t, c, Expired, s.checkouts[c].request);
    case CloseRequest(r) =>
      var closed := s.(requests := s.requests[r := s.requests[r].(closed := true)]);
      if exists c | c in s.checkouts :: Checkouts.AwaitingFor(s.checkouts[c], r) {
        forall c | c in s.checkouts && Checkouts.AwaitingFor(s.checkouts[c], r) {
          ReleasedStays(closed, Sourcing.Sync(Checkouts.Release(closed, c, CheckoutStatus.Cancelled), Some(r)), c,
                        CheckoutStatus.Cancelled, Some(r));
        }
      } else {
        SourcingProofs.SyncTouchesStatusOnly(closed, Some(r));
      }
  }

  // Everything else that does not edit the listing itself.
  lemma RequestsStay(config: Config, s: State, e: ShopEvent)
    requires e.ReadListing? || e.SetCart? || e.OpenRequest? || e.AssignAgent? || e.SaveAllocations?
    requires ApplyShop(config, s, e).Ok?
    ensures ApplyShop(config, s, e).value.listings == s.listings
  {
    hide Sourcing.Sync, Checkouts.Checked;
    match e
    case AssignAgent(r, agent, _) =>
      SourcingProofs.SyncTouchesStatusOnly(s.(requests := s.requests[r := s.requests[r].(agent := Some(agent))]), Some(r));
    case SaveAllocations(r, lines, matching) =>
      var items := Checkouts.Checked(s, lines, matching).value;
      SourcingProofs.SyncTouchesStatusOnly(s.(requests := s.requests[r := s.requests[r].(allocations := items)]), Some(r));
    case _ =>
  }

  lemma OrdersStay(s: State, e: OrderEvent)
    requires ApplyOrder(s, e).Ok?
    ensures OnlyStock(s.listings, ApplyOrder(s, e).value.listings)
    ensures ApplyOrder(s, e).value.listings.Keys == s.listings.Keys
  {
    hide Orders.Moved, ReleaseStock;
    forall t: State, o: Id, row: Rows.Order
      ensures Orders.Moved(t, o, row).listings == t.listings
    {
      MovedStays(t, o, row);
    }
    match e
    case Cancel(session, _) => ReleaseStockStays(s.listings, s.orderReads[session].row);
    case Remove(session, _) => ReleaseStockStays(s.listings, s.orderReads[session].row);
    case _ =>
  }

  lemma MovedStays(s: State, o: Id, row: Rows.Order)
    ensures Orders.Moved(s, o, row).listings == s.listings
  {
    hide Sourcing.Sync;
    SourcingProofs.SyncTouchesStatusOnly(s.(orders := s.orders[o := row]), Sourcing.RequestOf(s, row));
  }

  lemma EditedDisabled(row: Listing, actual: Option<nat>, status: Option<ProduceStatus>, price: Option<nat>)
    ensures Edited(row, actual, status, price).status.Disabled? <==>
              row.status.Disabled? || status == Some(ProduceStatus.Disabled)
  {
  }

  // What an edit commits, and over which listing.
  lemma UpdateIs(s: State, session: Id, actual: Option<nat>, status: Option<ProduceStatus>, price: Option<nat>, l: Id)
    requires l in s.listings && s.listings[l].floating >= 0
    ensures var r := Stock.UpdateListing(s, session, actual, status, price);
            var hit := session in s.listingReads && s.listingReads[session].id == l;
            && (r.Ok? ==> l in r.value.listings)
            && (r.Ok? && !hit ==> r.value.listings[l] == s.listings[l])
            && (hit ==> var seen := s.listingReads[session].row;
                  && (r.Ok? <==>
                        && seen.actual == s.listings[l].actual && seen.floating == s.listings[l].floating
                        && (actual.Some? ==> seen.floating + actual.value - seen.actual >= 0))
                  && (r.Ok? ==> r.value.listings[l].status == Edited(seen, actual, status, price).status))
  {
    hide DeriveStatus;
  }

  lemma EditReopens(config: Config, s: State, e: ShopEvent, l: Id)
    requires e.UpdateListing? && l in s.listings && s.listings[l].status.Disabled? && s.listings[l].floating >= 0
    ensures var after := After(config, s, Shop(e)).listings;
            l in after && (!after[l].status.Disabled? <==> Reopens(s, Shop(e), l))
  {
    hide Stock.UpdateListing, Edited;
    UpdateIs(s, e.session, e.actual, e.newStatus, e.newPrice, l);
    if e.session in s.listingReads {
      EditedDisabled(s.listingReads[e.session].row, e.actual, e.newStatus, e.newPrice);
    }
  }

  lemma ShopStays(config: Config, s: State, e: ShopEvent, l: Id)
    requires !e.UpdateListing? && ApplyShop(config, s, e).Ok? && l in s.listings && s.listings[l].status.Disabled?
    requires l < s.next
    ensures var after := ApplyShop(config, s, e).value.listings; l in after ==> after[l].status.Disabled?
  {
    hide Checkouts.BuyNow, Checkouts.PlaceOrders, Checkouts.ConfirmRequest, Checkouts.CancelCheckout, Checkouts.Expire;
    hide Checkouts.CloseRequest, Sourcing.OpenRequest, Sourcing.AssignAgent, Checkouts.SaveAllocations;
    if e.BuyNow? || e.PlaceOrders? || e.ConfirmRequest? {
      PlacingStays(config, s, e);
    } else if e.CancelCheckout? || e.Expire? || e.CloseRequest? {
      ReleasingStays(config, s, e);
    } else if !e.CreateListing? && !e.DisableListing? && !e.RemoveListing? {
      RequestsStay(config, s, e);
    }
  }

  lemma MoneyStays(config: Config, s: State, e: MoneyEvent)
    requires ApplyMoney(config, s, e).Ok?
    ensures ApplyMoney(config, s, e).value.listings == s.listings
  {
    hide Payments.ApplyCharge, Payments.Initiate, Payments.FailPending, Refunds.SettleRefund, Refunds.RefundStep;
    hide Payouts.SettlePayout, Payouts.RejectTransfers, Payouts.Approve;
    match e
    case Initiate(c, buyer, key, currency, rate, now) => Bystanders.AttemptFrame(s, c, buyer, key, currency, rate, now);
    case OpenFailed(p) => Bystanders.FailFrame(s, p);
    case Charged(charge) => ChargeStays(s, charge);
    case Refund(p, order) => RefundStays(s, p, order);
    case RefundSettled(r, processed) => Bystanders.RefundFrame(s, r, processed);
    case SetAccount(_, _) =>
    case Approve(farmers, now) => ApproveStays(config, s, farmers, now);
    case TransfersRejected(ids) => Bystanders.RejectFrame(s, ids);
    case TransferSettled(p, outcome) => Bystanders.TransferFrame(s, p, outcome);
  }

  lemma RefundStays(s: State, p: Id, order: Option<Id>)
    requires Refunds.RefundStep(s, p, order).Ok?
    ensures Refunds.RefundStep(s, p, order).value.listings == s.listings
  {
    hide Refunds.OrderAmount, Refunds.LiveItemOn, Refunds.Remaining;
  }

  lemma SettleStays(s: State, p: Id, r: Option<Id>)
    requires p in s.payments && s.payments[p].checkout in s.checkouts
    ensures Sourcing.Sync(Payments.Settle(s, p), r).listings == s.listings
  {
    hide Sourcing.Sync, Checkouts.WithOrders;
    SourcingProofs.SyncTouchesStatusOnly(Payments.Settle(s, p), r);
  }

  lemma ChargeStays(s: State, charge: Payments.Charge)
    requires Payments.ApplyCharge(s, charge).Ok?
    ensures Payments.ApplyCharge(s, charge).value.listings == s.listings
  {
    hide Sourcing.Sync, Payments.Settle, Payments.Orphan, Payments.SendBack, Payments.FailPending;
    var p := charge.payment;
    var payment := s.payments[p];
    SendBackStays(s, p);
    if Payments.Applicable(payment.status) && charge.outcome.Success? &&
       !Payments.Orphan(payment, s.checkouts[payment.checkout], charge) {
      SettleStays(s, p, s.checkouts[payment.checkout].request);
    }
  }

  lemma SendBackStays(s: State, p: Id)
    requires p in s.payments
    ensures Payments.SendBack(s, p).listings == s.listings && Payments.FailPending(s, p).listings == s.listings
  {
  }

  lemma {:induction false} ApproveStays(config: Config, s: State, farmers: seq<Id>, now: int)
    ensures Payouts.Approve(s, config, farmers, now).listings == s.listings
  {
    if farmers != [] {
      ApproveStays(config, s, farmers[..|farmers| - 1], now);
    }
  }

  /**
   * A disabled listing leaves DISABLED exactly when a farmer's edit computed from a row read before
   * the disable still finds both counters as it read them: no other step of anyone does it.
   */
  lemma OnlyStaleEditsReopen(config: Config, s: State, e: Event, l: Id)
    requires Inv(s) && l in s.listings && s.listings[l].status.Disabled?
    ensures var after := After(config, s, e).listings;
            (l in after && !after[l].status.Disabled?) <==> Reopens(s, e, l)
  {
    hide Inv, ApplyShop, ApplyOrder, ApplyMoney, Reopens;
    FreshListing(s, l);
    if e.Shop? && e.shop.UpdateListing? {
      ListingFacts(s, l);
      EditReopens(config, s, e.shop, l);
    } else {
      NotReopening(s, e, l);
      if Apply(config, s, e).Ok? {
        match e
        case Shop(x) => ShopStays(config, s, x, l);
        case Order(x) => OrdersStay(s, x);
        case Money(x) => MoneyStays(config, s, x);
      }
    }
  }

  lemma NotReopening(s: State, e: Event, l: Id)
    requires l in s.listings && !(e.Shop? && e.shop.UpdateListing?)
    ensures !Reopens(s, e, l)
  {
  }

  lemma FreshListing(s: State, l: Id)
    requires Inv(s) && l in s.listings
    ensures l < s.next
  {
    hide StockOk, CheckoutsOk, HandoversOk, ReadsOk, PaymentsOk, RefundsOk, PayoutsOk, Excluded, RequestRefs, SyncedBut;
    hide CartsOk;
  }
}
