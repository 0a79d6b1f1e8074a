/** What every event leaves of the carts, the farms' standing, the holds on accounts and what sessions have read. */
module Standing {
  import opened Rows
  import opened Stock
  import Sourcing
  import SourcingProofs
  import Checkouts
  import Orders
  import opened Invariants
  import opened Runs
  import opened Conservation
  import opened Frames
  import Gaining

  // ----- Farms and accounts -----

  predicate Approves(e: Event, farm: Id) {
    e.Order? && e.order.FarmApproved? && e.order.farm == farm
  }

  predicate Unverifies(e: Event, farm: Id) {
    e.Order? && e.order.FarmUnverified? && e.order.farm == farm
  }

  function At<R>(table: map<Id, R>, id: Id): Option<R> {
    if id in table then Some(table[id]) else None
  }

  /**
   * A farm may be sold from after it is approved and until it is unverified; it is in the cluster of the agent who
   * approved it until it leaves.
   */
  lemma FarmStands(config: Config, s: State, e: Event, farm: Id)
    requires Inv(s)
    ensures var t := After(config, s, e);
            && (farm in t.verified <==> Approves(e, farm) || (farm in s.verified && !Unverifies(e, farm)))
            && At(t.clusters, farm) == if Approves(e, farm) then Some(e.order.agent)
                                              else if Unverifies(e, farm) && e.order.leaves then None
                                              else At(s.clusters, farm)
  {
    hide Inv, ApplyShop, ApplyMoney;
    EventWrites(config, s, e);
    if e.Order? {
      OrderStands(config, s, e.order);
    }
  }

  lemma OrderStands(config: Config, s: State, e: OrderEvent)
    ensures var t := After(config, s, Event.Order(e));
            && t.verified == (if e.FarmApproved? then s.verified + {e.farm}
                              else if e.FarmUnverified? then s.verified - {e.farm} else s.verified)
            && t.clusters == (if e.FarmApproved? then s.clusters[e.farm := e.agent]
                              else if e.FarmUnverified? && e.leaves then s.clusters - {e.farm} else s.clusters)
  {
    hide Orders.Moved, ReleaseStock, Restatused, Orders.Ticked;
    forall t: State, o: Id, row: Rows.Order
      ensures Orders.Moved(t, o, row).verified == t.verified && Orders.Moved(t, o, row).clusters == t.clusters
    {
      MovedStands(t, o, row);
    }
  }

  lemma MovedStands(s: State, o: Id, row: Rows.Order)
    ensures var t := Orders.Moved(s, o, row);
            t.verified == s.verified && t.clusters == s.clusters && t.orderReads == s.orderReads
  {
    hide Sourcing.Sync;
    SourcingProofs.SyncTouchesStatusOnly(s.(orders := s.orders[o := row]), Sourcing.RequestOf(s, row));
  }

  /** A hold on a farmer's account is the last one set. */
  lemma AccountHolds(config: Config, s: State, e: Event, farmer: Id)
    requires Inv(s)
    ensures At(After(config, s, e).accounts, farmer) ==
            if e.Money? && e.money.SetAccount? && e.money.farmer == farmer then Some(e.money.heldUntil)
            else At(s.accounts, farmer)
  {
    hide Inv, ApplyShop, ApplyOrder;
    EventWrites(config, s, e);
  }

  // ----- Carts -----

  /**
   * A buyer's cart holds what was last put there, until a checkout of it is placed, which empties it; buying
   * directly or confirming a request leaves every cart alone.
   */
  lemma CartMoves(config: Config, s: State, e: Event, buyer: Id)
    requires Inv(s)
    ensures var t := After(config, s, e);
            Checkouts.CartOf(t, buyer) ==
            if e.Shop? && e.shop.SetCart? && e.shop.buyer == buyer && WellFormed(e.shop) then e.shop.cart
            else if e.Shop? && e.shop.PlaceOrders? && e.shop.draft.buyer == buyer && t.checkouts != s.checkouts then map[]
            else Checkouts.CartOf(s, buyer)
  {
    hide Inv, ApplyShop, ApplyOrder, ApplyMoney;
    EventWrites(config, s, e);
    if e.Shop? {
      RefusesBad(config, s, e.shop);
      if ApplyShop(config, s, e.shop).Ok? {
        if Placing(e.shop) {
          PlacingCarts(config, s, e.shop);
        } else if !Ending(e.shop) {
          OtherCarts(config, s, e.shop);
        }
      }
    }
  }

  lemma RefusesBad(config: Config, s: State, e: ShopEvent)
    ensures ApplyShop(config, s, e).Ok? ==> WellFormed(e)
    ensures e.SetCart? && WellFormed(e) ==> ApplyShop(config, s, e).Ok?
  {
    hide Checkouts.BuyNow, Checkouts.PlaceOrders, Checkouts.ConfirmRequest, Checkouts.CancelCheckout, Checkouts.Expire;
    hide Checkouts.CloseRequest, Checkouts.SaveAllocations, Sourcing.AssignAgent, Stock.UpdateListing;
  }

  lemma PlaceCarts(s: State, config: Config, draft: Checkouts.Draft, lines: seq<Checkouts.Line>, request: Option<Id>,
                   now: int, lost: Error)
    requires Checkouts.Place(s, config, draft, lines, request, now, lost).Ok?
    ensures var t := Checkouts.Place(s, config, draft, lines, request, now, lost).value;
            t.carts == s.carts && s.next in t.checkouts
  {
    hide Checkouts.ReserveAll, Checkouts.AddOrders, Checkouts.Subtotal, Checkouts.GrandTotal;
  }

  lemma PlacingCarts(config: Config, s: State, e: ShopEvent)
    requires Inv(s) && Placing(e) && ApplyShop(config, s, e).Ok?
    ensures var t := ApplyShop(config, s, e).value;
            t.carts == if e.PlaceOrders? && t.checkouts != s.checkouts then s.carts - {e.draft.buyer} else s.carts
  {
    hide Inv, Sourcing.Sync, Checkouts.Place, Sourcing.ListingEligible, Checkouts.Selected, Checkouts.HasLive;
    hide Checkouts.AllOrderable, Checkouts.KeyOfOther, Checkouts.HasKey, Checkouts.SortedLines;
    Gaining.NextIsNew(s);
    match e
    case BuyNow(draft, line, now) =>
      if !Checkouts.HasKey(s.checkouts, draft.buyer, draft.key) {
        PlaceCarts(s, config, draft, [line], None, now, OrderRefusal(s.listings, s.verified, line.listing));
      }
    case PlaceOrders(draft, now) =>
      if !Checkouts.HasKey(s.checkouts, draft.buyer, draft.key) {
        PlaceCarts(s, config, draft, Checkouts.SortedLines(Checkouts.CartOf(s, draft.buyer)), None, now, CartNeedsAttention);
      }
    case ConfirmRequest(r, draft, _, now) =>
      var row := s.requests[r];
      if !Checkouts.HasKey(s.checkouts, row.buyer, draft.key) {
        var lines, mine := Checkouts.SortedLines(row.allocations), draft.(buyer := row.buyer);
        PlaceCarts(s, config, mine, lines, Some(r), now, ListingNotEligible);
        SourcingProofs.SyncTouchesStatusOnly(Checkouts.Place(s, config, mine, lines, Some(r), now, ListingNotEligible).value,
                                             Some(r));
      }
  }

  lemma OtherCarts(config: Config, s: State, e: ShopEvent)
    requires !Placing(e) && !Ending(e) && ApplyShop(config, s, e).Ok?
    ensures ApplyShop(config, s, e).value.carts == if e.SetCart? then s.carts[e.buyer := e.cart] else s.carts
  {
    hide Sourcing.Sync, Checkouts.Checked, Edited;
    match e
    case AssignAgent(r, agent, _) =>
      SourcingProofs.SyncTouchesStatusOnly(s.(requests := s.requests[r := s.requests[r].(agent := Some(agent))]), Some(r));
    case SaveAllocations(r, lines, matching) =>
      var items := Checkouts.Checked(s, lines, matching).value;
      SourcingProofs.SyncTouchesStatusOnly(s.(requests := s.requests[r := s.requests[r].(allocations := items)]), Some(r));
    case _ =>
  }

  // ----- Reads -----

  /** A session remembers of an order, or a listing, what it held when the session last read one. */
  lemma ReadsLast(config: Config, s: State, e: Event, session: Id)
    requires Inv(s)
    ensures var t := After(config, s, e);
            && At(t.orderReads, session) ==
               (if e.Order? && e.order.ReadOrder? && e.order.session == session && e.order.order in s.orders then
                  Some(Read(e.order.order, s.orders[e.order.order]))
                else At(s.orderReads, session))
            && At(t.listingReads, session) ==
               (if e.Shop? && e.shop.ReadListing? && e.shop.session == session && e.shop.listing in s.listings then
                  Some(Read(e.shop.listing, s.listings[e.shop.listing]))
                else At(s.listingReads, session))
  {
    hide Inv, ApplyOrder, ApplyShop, ApplyMoney;
    EventWrites(config, s, e);
    if e.Order? {
      OrderReads(config, s, e.order);
    } else if e.Shop? && !Placing(e.shop) && !Ending(e.shop) {
      ListingReads(config, s, e.shop);
    }
  }

  lemma OrderReads(config: Config, s: State, e: OrderEvent)
    ensures After(config, s, Event.Order(e)).orderReads ==
            if e.ReadOrder? && e.order in s.orders then s.orderReads[e.session := Read(e.order, s.orders[e.order])]
            else s.orderReads
  {
    hide Orders.Moved, ReleaseStock, Restatused, Orders.Ticked;
    forall t: State, o: Id, row: Rows.Order
      ensures Orders.Moved(t, o, row).orderReads == t.orderReads
    {
      MovedStands(t, o, row);
    }
  }

  lemma ListingReads(config: Config, s: State, e: ShopEvent)
    requires !Placing(e) && !Ending(e)
    ensures After(config, s, Shop(e)).listingReads ==
            if e.ReadListing? && e.listing in s.listings then
              s.listingReads[e.session := Read(e.listing, s.listings[e.listing])]
            else s.listingReads
  {
    hide Sourcing.Sync, Checkouts.Checked, Edited;
    if ApplyShop(config, s, e).Ok? {
      match e
      case AssignAgent(r, agent, _) =>
        SourcingProofs.SyncTouchesStatusOnly(s.(requests := s.requests[r := s.requests[r].(agent := Some(agent))]), Some(r));
      case SaveAllocations(r, lines, matching) =>
        var items := Checkouts.Checked(s, lines, matching).value;
        SourcingProofs.SyncTouchesStatusOnly(s.(requests := s.requests[r := s.requests[r].(allocations := items)]), Some(r));
      case _ =>
    }
  }
}
