/** What every event leaves of a sourcing request's agent, selection and closing. */
module RequestMoves {
  import opened Rows
  import opened Sourcing
  import SourcingProofs
  import Stock
  import Orders
  import opened Checkouts
  import Payments
  import opened Invariants
  import opened Runs
  import opened Frames
  import opened RequestStatus
  import RequestProofs
  import PaymentSafety

  // A row left alone, or with its status and closing derived afresh from the rows as they now are.
  predicate KeptOrDerived(row: Request, t: State, r: Id) {
    r in t.requests && (t.requests[r] == row || t.requests[r] == Resynced(row, ViewOf(row, r, t.checkouts, t.orders)))
  }

  lemma SyncDerives(u: State, q: Option<Id>, r: Id)
    requires r in u.requests
    ensures KeptOrDerived(u.requests[r], Sync(u, q), r)
  {
    hide ViewOf, Resynced;
    if q.Some? && q.value in u.requests {
      SourcingProofs.SyncIs(u, q.value);
    } else {
      SourcingProofs.SyncNothing(u, q);
    }
  }

  lemma PlacingDerives(config: Config, s: State, e: ShopEvent, r: Id)
    requires Placing(e) && ApplyShop(config, s, e).Ok? && r in s.requests
    ensures KeptOrDerived(s.requests[r], ApplyShop(config, s, e).value, r)
  {
    hide Place, HasKey, HasLive, Sync, Selected, ListingEligible, AllOrderable, SortedLines, KeyOfOther, Resynced, ViewOf;
    match e
    case BuyNow(draft, line, now) =>
      if !HasKey(s.checkouts, draft.buyer, draft.key) {
        PlaceRequests(s, config, draft, [line], None, now, Stock.OrderRefusal(s.listings, s.verified, line.listing));
      }
    case PlaceOrders(draft, now) =>
      if !HasKey(s.checkouts, draft.buyer, draft.key) {
        PlaceRequests(s, config, draft, SortedLines(CartOf(s, draft.buyer)), None, now, CartNeedsAttention);
      }
    case ConfirmRequest(q, draft, _, now) =>
      var row := s.requests[q];
      if !HasKey(s.checkouts, row.buyer, draft.key) {
        var lines, mine := SortedLines(row.allocations), draft.(buyer := row.buyer);
        PlaceRequests(s, config, mine, lines, Some(q), now, ListingNotEligible);
        SyncDerives(Place(s, config, mine, lines, Some(q), now, ListingNotEligible).value, Some(q), r);
      }
  }

  lemma PlaceRequests(s: State, config: Config, draft: Draft, lines: seq<Line>, request: Option<Id>, now: int, lost: Error)
    requires Place(s, config, draft, lines, request, now, lost).Ok?
    ensures Place(s, config, draft, lines, request, now, lost).value.requests == s.requests
  {
    hide ReserveAll, AddOrders, Subtotal, GrandTotal;
  }

  // ----- The three things an admin may do to a request -----

  predicate AssignsNow(s: State, e: Event, r: Id)
    requires r in s.requests
  {
    e.Shop? && e.shop.AssignAgent? && e.shop.request == r && e.shop.suits && Editable(s, r)
  }

  predicate SavesNow(s: State, e: Event, r: Id)
    requires r in s.requests
  {
    && e.Shop? && e.shop.SaveAllocations? && WellFormed(e.shop) && e.shop.request == r && Editable(s, r)
    && s.requests[r].agent.Some? && Distinct(e.shop.lines)
    && forall i | 0 <= i < |e.shop.lines| :: OnOffer(s, e.shop.lines[i], e.shop.matching)
  }

  ghost predicate ClosesNow(s: State, e: Event, r: Id)
    requires r in s.requests
  {
    && e.Shop? && e.shop.CloseRequest? && e.shop.request == r && !s.requests[r].closed
    && forall c | Serves(s, c, r) :: !s.checkouts[c].status.Paid?
  }

  /** Nothing the request's paid checkout was for is left. */
  ghost predicate CalledOff(s: State, r: Id) {
    exists c | Serves(s, c, r) :: s.checkouts[c].status.Paid? && Statuses(s, c) == {OrderStatus.Cancelled}
  }

  // The row as an admin's accepted change to it leaves it, before its status is derived.
  function Touched(s: State, e: ShopEvent, r: Id): Request
    requires r in s.requests
  {
    var row := s.requests[r];
    match e
    case AssignAgent(q, agent, _) => if q == r then row.(agent := Some(agent)) else row
    case SaveAllocations(q, lines, matching) =>
      if q == r && Checked(s, lines, matching).Ok? then row.(allocations := Checked(s, lines, matching).value) else row
    case CloseRequest(q) => if q == r then row.(closed := true) else row
    case _ => row
  }

  lemma ReleaseRequests(s: State, c: Id, status: CheckoutStatus)
    requires c in s.checkouts
    ensures Release(s, c, status).requests == s.requests
  {
    hide Returned, WithOrders, WithoutPending;
  }

  lemma ReleasedDerives(s: State, c: Id, status: CheckoutStatus, q: Option<Id>, r: Id)
    requires c in s.checkouts && r in s.requests
    ensures KeptOrDerived(s.requests[r], Sync(Release(s, c, status), q), r)
  {
    hide Sync, Release, KeptOrDerived;
    ReleaseRequests(s, c, status);
    SyncDerives(Release(s, c, status), q, r);
  }

  lemma EndingDerives(config: Config, s: State, e: ShopEvent, r: Id)
    requires Ending(e) && !e.CloseRequest? && ApplyShop(config, s, e).Ok? && r in s.requests
    ensures KeptOrDerived(s.requests[r], ApplyShop(config, s, e).value, r)
  {
    hide Sync, Release, KeptOrDerived;
    match e
    case CancelCheckout(c, _) => ReleasedDerives(s, c, CheckoutStatus.Cancelled, s.checkouts[c].request, r);
    case Expire(c, _) => ReleasedDerives(s, c, Expired, s.checkouts[c].request, r);
  }

  lemma ClosingDerives(s: State, q: Id, r: Id)
    requires Checkouts.CloseRequest(s, q).Ok? && r in s.requests
    ensures KeptOrDerived(Touched(s, ShopEvent.CloseRequest(q), r), Checkouts.CloseRequest(s, q).value, r)
  {
    hide Sync, Release, KeptOrDerived;
    var closed := s.(requests := s.requests[q := s.requests[q].(closed := true)]);
    if exists c | c in s.checkouts :: AwaitingFor(s.checkouts[c], q) {
      forall c | c in s.checkouts && AwaitingFor(s.checkouts[c], q)
        ensures KeptOrDerived(closed.requests[r], Sync(Release(closed, c, CheckoutStatus.Cancelled), Some(q)), r)
      {
        ReleasedDerives(closed, c, CheckoutStatus.Cancelled, Some(q), r);
      }
    } else {
      SyncDerives(closed, Some(q), r);
    }
  }

  lemma OtherShopDerives(config: Config, s: State, e: ShopEvent, r: Id)
    requires !Placing(e) && !Ending(e) && ApplyShop(config, s, e).Ok? && r in s.requests && r < s.next
    ensures KeptOrDerived(Touched(s, e, r), ApplyShop(config, s, e).value, r)
  {
    hide Sync, Checked, Stock.Edited, Resynced, ViewOf;
    match e
    case AssignAgent(q, agent, _) =>
      SyncDerives(s.(requests := s.requests[q := s.requests[q].(agent := Some(agent))]), Some(q), r);
    case SaveAllocations(q, lines, matching) =>
      var items := Checked(s, lines, matching).value;
      SyncDerives(s.(requests := s.requests[q := s.requests[q].(allocations := items)]), Some(q), r);
    case _ =>
  }

  lemma MovedDerives(u: State, o: Id, row: Rows.Order, r: Id)
    requires r in u.requests
    ensures KeptOrDerived(u.requests[r], Orders.Moved(u, o, row), r)
  {
    hide Sync, KeptOrDerived;
    SyncDerives(u.(orders := u.orders[o := row]), RequestOf(u, row), r);
  }

  lemma OrderDerives(s: State, e: OrderEvent, r: Id)
    requires ApplyOrder(s, e).Ok? && r in s.requests
    ensures KeptOrDerived(s.requests[r], ApplyOrder(s, e).value, r)
  {
    hide Orders.Moved, Stock.ReleaseStock, Stock.Restatused, Resynced, ViewOf;
    forall u: State, o: Id, row: Rows.Order | u.requests == s.requests
      ensures KeptOrDerived(s.requests[r], Orders.Moved(u, o, row), r)
    {
      MovedDerives(u, o, row, r);
    }
  }

  lemma ChargeDerives(config: Config, s: State, charge: Payments.Charge, r: Id)
    requires Inv(s) && r in s.requests
    ensures KeptOrDerived(s.requests[r], After(config, s, Money(Charged(charge))), r)
  {
    hide Inv, Sync, Payments.Orphan, Payments.SendBack, Payments.FailPending, WithOrders, Resynced, ViewOf;
    var p := charge.payment;
    if p in s.payments {
      PaymentSafety.PaymentHasCheckout(s, p);
      SidelinedRequests(s, p);
      SyncDerives(Payments.Settle(s, p), s.checkouts[s.payments[p].checkout].request, r);
    }
  }

  lemma SidelinedRequests(s: State, p: Id)
    requires p in s.payments
    ensures Payments.SendBack(s, p).requests == s.requests && Payments.FailPending(s, p).requests == s.requests
  {
  }

  lemma SameRequests(s: State, t: State, r: Id)
    requires r in s.requests && t.requests == s.requests
    ensures KeptOrDerived(s.requests[r], t, r)
  {
  }

  lemma NextRequest(s: State, r: Id)
    requires Inv(s) && r in s.requests
    ensures r < s.next
  {
    hide Stock.StockOk, CheckoutsOk, HandoversOk, ReadsOk, PaymentsOk, RefundsOk, PayoutsOk, Excluded, RequestRefs;
    hide SyncedBut, CartsOk;
  }

  ghost function TouchedBy(config: Config, s: State, e: Event, r: Id): Request
    requires r in s.requests
  {
    if e.Shop? && Apply(config, s, e).Ok? then Touched(s, e.shop, r) else s.requests[r]
  }

  lemma EventDerives(config: Config, s: State, e: Event, r: Id)
    requires Inv(s) && r in s.requests
    ensures KeptOrDerived(TouchedBy(config, s, e, r), After(config, s, e), r)
  {
    hide Inv, ApplyOrder, ApplyMoney, KeptOrDerived;
    hide Checkouts.CloseRequest, Checkouts.PlaceOrders, Checkouts.BuyNow, Checkouts.ConfirmRequest;
    hide Checkouts.CancelCheckout, Checkouts.SaveAllocations, Sourcing.AssignAgent, Stock.UpdateListing;
    SameRequests(s, s, r);
    NextRequest(s, r);
    if e.Money? && e.money.Charged? {
      ChargeDerives(config, s, e.money.charge, r);
    } else if e.Money? {
      EventWrites(config, s, e);
      SameRequests(s, After(config, s, e), r);
    } else if Apply(config, s, e).Ok? {
      match e
      case Shop(x) =>
        if Placing(x) {
          PlacingDerives(config, s, x, r);
        } else if x.CloseRequest? {
          ClosingDerives(s, x.request, r);
        } else if Ending(x) {
          EndingDerives(config, s, x, r);
        } else {
          OtherShopDerives(config, s, x, r);
        }
      case Order(x) => OrderDerives(s, x, r);
    }
  }

  // ----- What closes -----

  lemma DerivedCloses(row: Request, t: State, r: Id)
    requires Inv(t) && KeptOrDerived(row, t, r) && t.requests[r].closed && !row.closed
    ensures CalledOff(t, r)
  {
    hide Inv, PaidOrders, Statuses;
    var view := ViewOf(row, r, t.checkouts, t.orders);
    assert AllCancelled(view.paid);
    var c :| c in t.checkouts && t.checkouts[c].request == Some(r) && t.checkouts[c].status.Paid?;
    assert Serves(t, c, r);
    ServedView(t, r, c);
    assert view.paid == ViewOf(t.requests[r], r, t.checkouts, t.orders).paid;
    HasOrder(t, c);
    PaidSets(Statuses(t, c));
  }

  lemma CalledOffCloses(config: Config, t: State, r: Id)
    requires Reachable(config, t) && r in t.requests && CalledOff(t, r)
    ensures t.requests[r].closed
  {
    hide Reachable, Statuses;
    var c :| Serves(t, c, r) && t.checkouts[c].status.Paid? && Statuses(t, c) == {OrderStatus.Cancelled};
    PaidStatus(config, t, r, c);
  }

  lemma DerivedKeeps(row: Request, t: State, r: Id)
    requires KeptOrDerived(row, t, r)
    ensures r in t.requests && t.requests[r] == row.(status := t.requests[r].status, closed := t.requests[r].closed)
    ensures row.closed ==> t.requests[r].closed
  {
    hide ViewOf, DeriveRequestStatus;
  }

  lemma TouchedIs(config: Config, s: State, e: Event, r: Id)
    requires Reachable(config, s) && r in s.requests
    ensures var row, was := TouchedBy(config, s, e, r), s.requests[r];
            && row == was.(agent := row.agent, allocations := row.allocations, closed := row.closed)
            && row.agent == (if AssignsNow(s, e, r) then Some(e.shop.agent) else was.agent)
            && (if SavesNow(s, e, r) then RequestProofs.Holds(row.allocations, e.shop.lines)
                else row.allocations == was.allocations)
            && (row.closed <==> was.closed || ClosesNow(s, e, r))
  {
    hide Reachable, Sync, Checked, Release, Editable, OnOffer, Serves, RequestProofs.Holds;
    if e.Shop? {
      match e.shop
      case AssignAgent(q, agent, suits) => AssignIff(config, s, q, agent, suits);
      case SaveAllocations(q, lines, matching) =>
        SaveIff(config, s, q, lines, matching);
        OnOfferIsEligible(s, lines, matching);
        RequestProofs.CheckedIff(s, lines, matching);
      case CloseRequest(q) => CloseIff(config, s, q);
      case _ =>
    }
  }

  /**
   * Over every event and every request: the buyer and what was asked for stay; the agent, the selection and
   * the closing change exactly when an admin may change them, except that a request is also closed once its
   * paid checkout has only cancelled orders.
   */
  lemma EveryMove(config: Config, s: State, e: Event, r: Id)
    requires Reachable(config, s) && r in s.requests
    ensures var t := After(config, s, e);
            && r in t.requests
            && var row, was := t.requests[r], s.requests[r];
            && row == was.(agent := row.agent, allocations := row.allocations, status := row.status, closed := row.closed)
            && row.agent == (if AssignsNow(s, e, r) then Some(e.shop.agent) else was.agent)
            && (if SavesNow(s, e, r) then RequestProofs.Holds(row.allocations, e.shop.lines)
                else row.allocations == was.allocations)
            && (row.closed <==> was.closed || ClosesNow(s, e, r) || CalledOff(t, r))
  {
    hide Reachable, Inv, After, TouchedBy, KeptOrDerived, AssignsNow, SavesNow, ClosesNow, CalledOff, RequestProofs.Holds;
    var t := After(config, s, e);
    ReachableOk(config, s);
    ReachableNext(config, s, e);
    ReachableOk(config, t);
    EventDerives(config, s, e, r);
    TouchedIs(config, s, e, r);
    var row := TouchedBy(config, s, e, r);
    DerivedKeeps(row, t, r);
    if t.requests[r].closed && !row.closed {
      DerivedCloses(row, t, r);
    }
    if CalledOff(t, r) {
      CalledOffCloses(config, t, r);
    }
  }
}
