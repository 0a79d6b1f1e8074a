/** Which events make a listing, a sourcing request, an order or a payment, and what it holds at first. */
module NewRows {
  import opened Rows
  import opened Stock
  import Sourcing
  import SourcingProofs
  import RequestMoves
  import Checkouts
  import Orders
  import Payments
  import PaymentProofs
  import PaymentSafety
  import opened Invariants
  import opened Runs
  import opened Conservation
  import opened Frames
  import opened ListingMoves
  import opened PaymentMoves

  // ----- Listings -----

  lemma OthersListNothing(config: Config, s: State, e: Event)
    requires Inv(s) && !(e.Shop? && e.shop.CreateListing?)
    ensures After(config, s, e).listings.Keys <= s.listings.Keys
  {
    hide Inv, ApplyShop, ApplyOrder, ApplyMoney, OnlyStock;
    if Apply(config, s, e).Ok? {
      match e
      case Shop(x) =>
        if Placing(x) {
          PlacingStays(config, s, x);
        } else if Ending(x) {
          ReleasingStays(config, s, x);
        } else if x.UpdateListing? || x.DisableListing? || x.RemoveListing? {
          OwnEventKeys(config, s, x);
        } else {
          RequestsStay(config, s, x);
        }
      case Order(x) => OrdersStay(s, x);
      case Money(x) => MoneyStays(config, s, x);
    }
  }

  lemma OwnEventKeys(config: Config, s: State, e: ShopEvent)
    requires e.UpdateListing? || e.DisableListing? || e.RemoveListing?
    requires ApplyShop(config, s, e).Ok?
    ensures ApplyShop(config, s, e).value.listings.Keys <= s.listings.Keys
  {
    hide Edited;
  }

  /**
   * A listing is made exactly by listing produce at a price: on that farm, with the whole quantity in both
   * counters, and with the status asked for unless that is on sale with nothing to sell.
   */
  lemma NewListing(config: Config, s: State, e: Event, l: Id)
    requires Reachable(config, s) && l !in s.listings
    ensures var t := After(config, s, e);
            && (l in t.listings <==> e.Shop? && e.shop.CreateListing? && e.shop.price > 0 && l == s.next)
            && (l in t.listings ==>
                  t.listings[l] == Listing(e.shop.farm, e.shop.farmer, e.shop.price, e.shop.quantity, e.shop.quantity,
                                           StatusAsked(e.shop.status, None, e.shop.quantity), e.shop.quantity))
  {
    hide Reachable, Inv, After;
    ReachableOk(config, s);
    if e.Shop? && e.shop.CreateListing? {
      CreateMakes(config, s, e.shop);
    } else {
      OthersListNothing(config, s, e);
    }
  }

  lemma CreateMakes(config: Config, s: State, e: ShopEvent)
    requires e.CreateListing?
    ensures After(config, s, Shop(e)).listings ==
            if e.price > 0 then
              s.listings[s.next := Listing(e.farm, e.farmer, e.price, e.quantity, e.quantity,
                                           StatusAsked(e.status, None, e.quantity), e.quantity)]
            else s.listings
  {
  }

  // ----- Sourcing requests -----

  lemma OthersAskNothing(config: Config, s: State, e: Event)
    requires Inv(s) && !(e.Shop? && e.shop.OpenRequest?)
    ensures After(config, s, e).requests.Keys == s.requests.Keys
  {
    hide Inv, ApplyShop, ApplyOrder, ApplyMoney;
    if Apply(config, s, e).Ok? {
      match e
      case Shop(x) =>
        if Placing(x) {
          PlacingAsks(config, s, x);
        } else if Ending(x) {
          EndingAsks(config, s, x);
        } else {
          OtherShopAsks(config, s, x);
        }
      case Order(x) => OrderAsks(s, x);
      case Money(x) =>
        if x.Charged? {
          ChargeAsks(config, s, x.charge);
        } else {
          EventWrites(config, s, e);
        }
    }
  }

  lemma SyncAsks(s: State, r: Option<Id>)
    ensures Sourcing.Sync(s, r).requests.Keys == s.requests.Keys
  {
    hide Sourcing.Sync;
    SourcingProofs.SyncTouchesStatusOnly(s, r);
  }

  lemma PlacingAsks(config: Config, s: State, e: ShopEvent)
    requires Placing(e) && ApplyShop(config, s, e).Ok?
    ensures ApplyShop(config, s, e).value.requests.Keys == s.requests.Keys
  {
    hide Sourcing.Sync, Checkouts.Place, Sourcing.ListingEligible, Checkouts.Selected, Checkouts.HasLive;
    hide Checkouts.AllOrderable, Checkouts.KeyOfOther, Checkouts.HasKey, Checkouts.SortedLines;
    match e
    case BuyNow(draft, line, now) =>
      if !Checkouts.HasKey(s.checkouts, draft.buyer, draft.key) {
        RequestMoves.PlaceRequests(s, config, draft, [line], None, now, OrderRefusal(s.listings, s.verified, line.listing));
      }
    case PlaceOrders(draft, now) =>
      if !Checkouts.HasKey(s.checkouts, draft.buyer, draft.key) {
        RequestMoves.PlaceRequests(s, config, draft, Checkouts.SortedLines(Checkouts.CartOf(s, draft.buyer)), None, now, CartNeedsAttention);
      }
    case ConfirmRequest(r, draft, _, now) =>
      var row := s.requests[r];
      if !Checkouts.HasKey(s.checkouts, row.buyer, draft.key) {
        var lines, mine := Checkouts.SortedLines(row.allocations), draft.(buyer := row.buyer);
        RequestMoves.PlaceRequests(s, config, mine, lines, Some(r), now, ListingNotEligible);
        SyncAsks(Checkouts.Place(s, config, mine, lines, Some(r), now, ListingNotEligible).value, Some(r));
      }
  }

  lemma ReleaseAsks(s: State, c: Id, status: CheckoutStatus, r: Option<Id>)
    requires c in s.checkouts
    ensures Sourcing.Sync(Checkouts.Release(s, c, status), r).requests.Keys == s.requests.Keys
  {
    hide Sourcing.Sync, Checkouts.Release;
    RequestMoves.ReleaseRequests(s, c, status);
    SyncAsks(Checkouts.Release(s, c, status), r);
  }

  lemma EndingAsks(config: Config, s: State, e: ShopEvent)
    requires Ending(e) && ApplyShop(config, s, e).Ok?
    ensures ApplyShop(config, s, e).value.requests.Keys == s.requests.Keys
  {
    hide Sourcing.Sync, Checkouts.Release;
    match e
    case CancelCheckout(c, _) => ReleaseAsks(s, c, CheckoutStatus.Cancelled, s.checkouts[c].request);
    case Expire(c, _) => ReleaseAsks(s, c, Expired, s.checkouts[c].request);
    case CloseRequest(r) =>
      var closed := s.(requests := s.requests[r := s.requests[r].(closed := true)]);
      if exists c | c in s.checkouts :: Checkouts.AwaitingFor(s.checkouts[c], r) {
        forall c | c in s.checkouts && Checkouts.AwaitingFor(s.checkouts[c], r) {
          ReleaseAsks(closed, c, CheckoutStatus.Cancelled, Some(r));
        }
      } else {
        SyncAsks(closed, Some(r));
      }
  }

  lemma OtherShopAsks(config: Config, s: State, e: ShopEvent)
    requires !Placing(e) && !Ending(e) && !e.OpenRequest? && ApplyShop(config, s, e).Ok?
    ensures ApplyShop(config, s, e).value.requests.Keys == s.requests.Keys
  {
    hide Sourcing.Sync, Checkouts.Checked, Edited;
    match e
    case AssignAgent(r, agent, _) =>
      SyncAsks(s.(requests := s.requests[r := s.requests[r].(agent := Some(agent))]), Some(r));
    case SaveAllocations(r, lines, matching) =>
      var items := Checkouts.Checked(s, lines, matching).value;
      SyncAsks(s.(requests := s.requests[r := s.requests[r].(allocations := items)]), Some(r));
    case _ =>
  }

  lemma MovedAsks(s: State, o: Id, row: Rows.Order)
    ensures Orders.Moved(s, o, row).requests.Keys == s.requests.Keys
  {
    hide Sourcing.Sync;
    SyncAsks(s.(orders := s.orders[o := row]), Sourcing.RequestOf(s, row));
  }

  lemma OrderAsks(s: State, e: OrderEvent)
    requires ApplyOrder(s, e).Ok?
    ensures ApplyOrder(s, e).value.requests.Keys == s.requests.Keys
  {
    hide Orders.Moved, ReleaseStock, Restatused;
    forall t: State, o: Id, row: Rows.Order
      ensures Orders.Moved(t, o, row).requests.Keys == t.requests.Keys
    {
      MovedAsks(t, o, row);
    }
  }

  lemma ChargeAsks(config: Config, s: State, charge: Payments.Charge)
    requires Inv(s)
    ensures After(config, s, Money(Charged(charge))).requests.Keys == s.requests.Keys
  {
    hide Inv, Sourcing.Sync, Payments.Orphan, Payments.SendBack, Payments.FailPending, Checkouts.WithOrders;
    var p := charge.payment;
    if p in s.payments {
      PaymentSafety.PaymentHasCheckout(s, p);
      RequestMoves.SidelinedRequests(s, p);
      SyncAsks(Payments.Settle(s, p), s.checkouts[s.payments[p].checkout].request);
    }
  }

  /** A request is made exactly by a buyer's asking: for that quantity, new, with no agent and nothing selected. */
  lemma NewRequest(config: Config, s: State, e: Event, r: Id)
    requires Reachable(config, s) && r !in s.requests
    ensures var t := After(config, s, e);
            && (r in t.requests <==> e.Shop? && e.shop.OpenRequest? && r == s.next)
            && (r in t.requests ==>
                  t.requests[r] == Request(e.shop.buyer, e.shop.requested, New, false, None, map[]))
  {
    hide Reachable, Inv, After;
    ReachableOk(config, s);
    if e.Shop? && e.shop.OpenRequest? {
      OpenMakes(config, s, e.shop);
    } else {
      OthersAskNothing(config, s, e);
    }
  }

  lemma OpenMakes(config: Config, s: State, e: ShopEvent)
    requires e.OpenRequest?
    ensures After(config, s, Shop(e)).requests
            == s.requests[s.next := Request(e.buyer, e.requested, New, false, None, map[])]
  {
  }

  // ----- Orders and payments -----

  /** Orders are made by the three ways of placing them and by nothing else. */
  lemma NewOrder(config: Config, s: State, e: Event, o: Id)
    requires Reachable(config, s) && o !in s.orders && o in After(config, s, e).orders
    ensures e.Shop? && Placing(e.shop)
  {
    hide Reachable, Inv, After, Checkouts.WithOrders;
    ReachableOk(config, s);
    if e.Shop? && Ending(e.shop) {
      EndingKeys(config, s, e.shop);
    } else if e.Money? && e.money.Charged? {
      AfterCharge(config, s, e.money.charge);
      UnpaidKeys(s.orders, s.payments[e.money.charge.payment].checkout, OrderStatus.Pending);
    } else if e.Order? {
      OrderKeys(config, s, e.order);
    } else {
      EventWrites(config, s, e);
    }
  }

  lemma UnpaidKeys(orders: map<Id, Rows.Order>, c: Id, status: OrderStatus)
    ensures Checkouts.WithOrders(orders, c, status).Keys == orders.Keys
  {
  }

  lemma EndingKeys(config: Config, s: State, e: ShopEvent)
    requires Reachable(config, s) && Ending(e)
    ensures var t := After(config, s, Shop(e)); t.orders.Keys == s.orders.Keys && t.payments.Keys == s.payments.Keys
  {
    hide Reachable, After, Withdraws, Expires, Checkouts.WithOrders, Checkouts.WithoutPending;
    if c :| c in s.checkouts && (Withdraws(s, Shop(e), c) || Expires(s, Shop(e), c)) {
      EndingIs(config, s, e, c);
      UnpaidKeys(s.orders, c, OrderStatus.Cancelled);
      PaymentProofs.WithoutPendingKeys(s.payments, c);
    } else {
      EndingNothing(config, s, e);
    }
  }

  lemma OrderKeys(config: Config, s: State, e: OrderEvent)
    ensures After(config, s, Event.Order(e)).orders.Keys <= s.orders.Keys
  {
    hide Orders.Moved, ReleaseStock, Restatused, Orders.Ticked;
    forall t: State, o: Id, row: Rows.Order
      ensures Orders.Moved(t, o, row).orders == t.orders[o := row]
    {
      MovedOrders(t, o, row);
    }
  }

  lemma MovedOrders(s: State, o: Id, row: Rows.Order)
    ensures Orders.Moved(s, o, row).orders == s.orders[o := row]
  {
    hide Sourcing.Sync;
    SourcingProofs.SyncTouchesStatusOnly(s.(orders := s.orders[o := row]), Sourcing.RequestOf(s, row));
  }

  /** A payment is made exactly when an attempt to pay starts. */
  lemma NewPayment(config: Config, s: State, e: Event, p: Id)
    requires Reachable(config, s) && p !in s.payments
    ensures p in After(config, s, e).payments <==>
              p == s.next && e.Money? && e.money.Initiate? && StartsAttempt(s, e, e.money.checkout)
  {
    hide Reachable, Inv, After, StartsAttempt, Checkouts.WithoutPending;
    ReachableOk(config, s);
    if e.Shop? && Ending(e.shop) {
      EndingKeys(config, s, e.shop);
    } else if e.Money? && e.money.Charged? {
      AfterCharge(config, s, e.money.charge);
    } else if e.Money? && e.money.Initiate? {
      AttemptStarts(config, s, e.money);
      PaymentProofs.WithoutPendingKeys(s.payments, e.money.checkout);
    } else if e.Money? && e.money.OpenFailed? {
      OpenFailedKeys(config, s, e.money.payment);
    } else {
      EventWrites(config, s, e);
    }
  }

  lemma OpenFailedKeys(config: Config, s: State, p: Id)
    ensures After(config, s, Money(OpenFailed(p))).payments.Keys == s.payments.Keys
  {
  }
}
