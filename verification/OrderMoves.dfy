/**
 * The life of an order: for every event, the row it leaves, by what can be seen in the rows before it. Every
 * move an order makes is here, and no other.
 */
module OrderMoves {
  import opened Rows
  import opened Sourcing
  import Stock
  import Orders
  import Checkouts
  import Payments
  import opened Invariants
  import opened Evolution
  import opened Runs
  import opened Frames
  import opened PaymentMoves
  import PaymentSafety
  import OrderProofs
  import Placement

  /** Session `session` read order `o` while it stood as `status`. */
  predicate ReadAs(s: State, session: Id, o: Id, status: OrderStatus) {
    session in s.orderReads && s.orderReads[session].id == o && s.orderReads[session].row.status == status
  }

  /** The session's read of the order is still right about its status. */
  predicate Current(s: State, session: Id, o: Id, status: OrderStatus)
    requires o in s.orders
  {
    ReadAs(s, session, o, status) && s.orders[o].status == status
  }

  /** Its buyer withdraws an order nobody has accepted, or its farmer one not ready yet. */
  predicate MayWithdraw(status: OrderStatus, seller: bool) {
    if seller then status.Pending? || status.Confirmed? || status.Preparing? else status.Pending?
  }

  /** The order is deleted: one placed outside any checkout, by its buyer, before it was accepted. */
  predicate Deletes(s: State, e: Event, o: Id)
    requires o in s.orders
  {
    && e.Order? && e.order.Remove? && Current(s, e.order.session, o, OrderStatus.Pending)
    && s.orders[o].checkout.None? && s.orders[o].buyer == e.order.buyer
  }

  // What one request says of one item.
  function Said(word: Option<bool>, was: bool): bool {
    if word.Some? then word.value else was
  }

  function TickedRow(order: Order, ticks: Orders.Ticks): Order {
    if order.checklist.None? then order
    else
      var list := order.checklist.value;
      order.(checklist := Some(Checklist(Said(ticks.harvested, list.harvested), Said(ticks.sorted, list.sorted),
                                         Said(ticks.packaged, list.packaged),
                                         Said(ticks.readyForPickup, list.readyForPickup))))
  }

  predicate AllTicked(list: Option<Checklist>) {
    && list.Some? && list.value.harvested && list.value.sorted && list.value.packaged && list.value.readyForPickup
  }

  predicate HandledBy(order: Order, agent: Id, status: HandoverStatus) {
    order.handover == Some(Handover(status, Some(agent)))
  }

  /** Where an event of the farmer, the buyer, the agent or the delivery leaves an order. */
  function OrderEventAfter(s: State, e: OrderEvent, o: Id): Order
    requires o in s.orders
  {
    var was := s.orders[o];
    match e
    case ReadOrder(_, _) => was
    case Confirm(session) =>
      if Current(s, session, o, OrderStatus.Pending) then was.(status := OrderStatus.Confirmed) else was
    case Prepare(session) =>
      if Current(s, session, o, OrderStatus.Confirmed) then
        was.(status := Preparing, checklist := Some(Checklist(false, false, false, false)))
      else was
    case Tick(session, ticks) => if Current(s, session, o, Preparing) then TickedRow(was, ticks) else was
    case MarkReady(session, list) =>
      if Current(s, session, o, Preparing) && AllTicked(was.checklist) &&
         list in s.orderReads && s.orderReads[list].id == o && AllTicked(s.orderReads[list].row.checklist) then
        was.(status := Ready,
             handover := Some(Handover(HandoverStatus.Pending,
                                       if was.farm in s.clusters then Some(s.clusters[was.farm]) else None)))
      else was
    case Cancel(session, seller) =>
      if Current(s, session, o, was.status) && MayWithdraw(was.status, seller) then
        was.(status := OrderStatus.Cancelled)
      else was
    case Remove(_, _) => was
    case VerifyHandover(p, agent) =>
      if p == o && HandledBy(was, agent, HandoverStatus.Pending) then
        was.(handover := Some(Handover(Verified, Some(agent))))
      else was
    case CompleteHandover(p, agent) =>
      if p == o && HandledBy(was, agent, Verified) then
        was.(status := Shipped, handover := Some(Handover(HandedOver, Some(agent))))
      else was
    case Fulfil(p, now) =>
      if p == o && was.status.Shipped? then was.(status := Fulfilled, fulfilledAt := Some(now)) else was
    case FarmApproved(farm, agent) =>
      if was.farm == farm && was.handover.Some? && was.handover.value.agent.None? &&
         !was.handover.value.status.HandedOver? then
        was.(handover := Some(Handover(was.handover.value.status, Some(agent))))
      else was
    case FarmUnverified(_, _) => was
  }

  /** Where any event leaves an order. */
  function OrderAfter(s: State, e: Event, o: Id): Order
    requires o in s.orders
  {
    var was := s.orders[o];
    if e.Order? then OrderEventAfter(s, e.order, o)
    else if was.checkout.None? || !was.status.AwaitingPayment? then was
    else if PaysFor(s, e, was.checkout.value) then was.(status := OrderStatus.Pending)
    else if Withdraws(s, e, was.checkout.value) || Expires(s, e, was.checkout.value) then
      was.(status := OrderStatus.Cancelled)
    else was
  }

  // ----- Orders with their checkouts -----

  lemma UnpaidOn(orders: map<Id, Order>, c: Id, status: OrderStatus, o: Id)
    requires o in orders
    ensures o in Checkouts.WithOrders(orders, c, status)
    ensures Checkouts.WithOrders(orders, c, status)[o]
            == orders[o].(status := if orders[o].checkout == Some(c) && orders[o].status.AwaitingPayment? then status
                                    else orders[o].status)
  {
  }

  lemma EndedOrder(config: Config, s: State, e: ShopEvent, o: Id)
    requires Reachable(config, s) && Ending(e) && o in s.orders
    requires s.orders[o].checkout.Some? ==> s.orders[o].checkout.value in s.checkouts
    ensures var t := After(config, s, Shop(e)); o in t.orders && t.orders[o] == OrderAfter(s, Shop(e), o)
  {
    hide Reachable, After, Withdraws, Expires, PaysFor, Checkouts.WithOrders;
    if s.orders[o].checkout.Some? {
      NotCharged(s, e, s.orders[o].checkout.value);
    }
    if d :| d in s.checkouts && (Withdraws(s, Shop(e), d) || Expires(s, Shop(e), d)) {
      EndingIs(config, s, e, d);
      UnpaidOn(s.orders, d, OrderStatus.Cancelled, o);
      if s.orders[o].checkout.Some? {
        var c := s.orders[o].checkout.value;
        if Withdraws(s, Shop(e), c) || Expires(s, Shop(e), c) {
          OneEnds(config, s, e, c, d);
        }
      }
    } else {
      EndingNothing(config, s, e);
    }
  }

  lemma ChargedOrder(config: Config, s: State, charge: Payments.Charge, o: Id)
    requires Inv(s) && o in s.orders
    ensures var e := Money(Charged(charge));
            var t := After(config, s, e); o in t.orders && t.orders[o] == OrderAfter(s, e, o)
  {
    hide Inv, After, PaymentSafety.Pays, Checkouts.WithOrders;
    AfterCharge(config, s, charge);
    if PaymentSafety.Pays(s, charge) {
      PaysKnown(s, charge);
      UnpaidOn(s.orders, s.payments[charge.payment].checkout, OrderStatus.Pending, o);
    }
  }

  lemma PlacedOrder(config: Config, s: State, e: ShopEvent, o: Id)
    requires Inv(s) && Placing(e) && o in s.orders
    ensures var t := After(config, s, Shop(e)); o in t.orders && t.orders[o] == OrderAfter(s, Shop(e), o)
  {
    hide Inv, ApplyShop, Placement.Fresh, Placement.BuyerOf, Placement.LinesOf, Checkouts.Place;
    hide Placement.CheckoutOfLines, Placement.OrderOfLine;
    if ApplyShop(config, s, e).Ok? {
      if Placement.Fresh(s, e) {
        Placement.PlacingIsPlace(config, s, e);
        Placement.FreshIds(s);
        Placement.PlaceMakes(s, config, e.draft.(buyer := Placement.BuyerOf(s, e)), Placement.LinesOf(s, e),
                             Placement.RequestFor(e), e.now, Placement.LostTo(s, e));
      } else {
        Placement.StalePlacesNothing(config, s, e);
      }
    }
  }

  // ----- The order's own events -----

  // What has been said of an order, or that it was deleted.
  predicate LeftAs(t: State, o: Id, row: Order) {
    o in t.orders && t.orders[o] == row
  }

  lemma MovedLeaves(s: State, q: Id, row: Order, o: Id)
    requires o in s.orders
    ensures LeftAs(Orders.Moved(s, q, row), o, if q == o then row else s.orders[o])
  {
    hide Orders.Moved;
    MovedWrites(s, q, row);
  }

  lemma ConfirmIs(s: State, session: Id, q: Id)
    requires Inv(s) && q in s.orders && session in s.orderReads && s.orderReads[session].id == q
    ensures s.orders[q].listing in s.listings
    ensures var row := s.listings[s.orders[q].listing];
            var taken := Stock.Restatused(row.(actual := row.actual - s.orders[q].quantity));
            var u := s.(listings := s.listings[s.orders[q].listing := taken]);
            if Current(s, session, q, OrderStatus.Pending) then
              Orders.Confirm(s, session) == Ok(Orders.Moved(u, q, s.orders[q].(status := OrderStatus.Confirmed)))
            else Orders.Confirm(s, session).Refused?
  {
    hide Inv, Orders.Moved, Stock.Restatused;
    OrderProofs.SeenFacts(s, session);
    OrderProofs.OrderFacts(s, q);
  }

  lemma ConfirmLeaves(s: State, session: Id, o: Id)
    requires Inv(s) && o in s.orders
    ensures var e := Confirm(session);
            match ApplyOrder(s, e)
            case Ok(t) => LeftAs(t, o, OrderEventAfter(s, e, o))
            case Refused(_) => OrderEventAfter(s, e, o) == s.orders[o]
  {
    hide Inv, Orders.Moved, LeftAs, Stock.Restatused, Orders.Confirm;
    if session in s.orderReads && s.orderReads[session].id in s.orders {
      var q := s.orderReads[session].id;
      ConfirmIs(s, session, q);
      var row := s.listings[s.orders[q].listing];
      var taken := Stock.Restatused(row.(actual := row.actual - s.orders[q].quantity));
      MovedLeaves(s.(listings := s.listings[s.orders[q].listing := taken]), q,
                  s.orders[q].(status := OrderStatus.Confirmed), o);
    } else {
      NotConfirmed(s, session);
    }
  }

  lemma NotConfirmed(s: State, session: Id)
    requires session in s.orderReads ==> s.orderReads[session].id !in s.orders
    ensures Orders.Confirm(s, session).Refused?
  {
    hide Orders.Moved;
  }

  lemma PrepareLeaves(s: State, session: Id, o: Id)
    requires Inv(s) && o in s.orders
    ensures var e := Prepare(session);
            match ApplyOrder(s, e)
            case Ok(t) => LeftAs(t, o, OrderEventAfter(s, e, o))
            case Refused(_) => OrderEventAfter(s, e, o) == s.orders[o]
  {
    hide Inv, Orders.Moved, LeftAs;
    if session in s.orderReads && s.orderReads[session].id in s.orders {
      var q := s.orderReads[session].id;
      var row := s.orders[q].(status := Preparing, checklist := Some(Checklist(false, false, false, false)));
      MovedLeaves(s, q, row, o);
    }
  }

  lemma TickLeaves(s: State, session: Id, ticks: Orders.Ticks, o: Id)
    requires Inv(s) && o in s.orders
    ensures var e := Tick(session, ticks);
            match ApplyOrder(s, e)
            case Ok(t) => LeftAs(t, o, OrderEventAfter(s, e, o))
            case Refused(_) => OrderEventAfter(s, e, o) == s.orders[o]
  {
    hide Inv, TickedRow;
    if session in s.orderReads && s.orderReads[session].id in s.orders {
      var q := s.orderReads[session].id;
      OrderProofs.OrderFacts(s, q);
      TickedSame(s.orders[q], ticks);
    }
  }

  lemma TickedSame(order: Order, ticks: Orders.Ticks)
    ensures order.checklist.Some? ==>
              TickedRow(order, ticks) == order.(checklist := Some(Orders.Ticked(order.checklist.value, ticks)))
  {
  }

  lemma MarkReadyLeaves(s: State, session: Id, list: Id, o: Id)
    requires Inv(s) && o in s.orders
    ensures var e := MarkReady(session, list);
            match ApplyOrder(s, e)
            case Ok(t) => LeftAs(t, o, OrderEventAfter(s, e, o))
            case Refused(_) => OrderEventAfter(s, e, o) == s.orders[o]
  {
    hide Inv, Orders.Moved, LeftAs;
    if session in s.orderReads && s.orderReads[session].id in s.orders {
      var q := s.orderReads[session].id;
      OrderProofs.SeenFacts(s, session);
      OrderProofs.OrderFacts(s, q);
      var handover := Handover(HandoverStatus.Pending, Orders.AgentOf(s.clusters, s.orders[q].farm));
      MovedLeaves(s, q, s.orders[q].(status := Ready, handover := Some(handover)), o);
    }
  }

  lemma CancelLeaves(s: State, session: Id, seller: bool, o: Id)
    requires Inv(s) && o in s.orders
    ensures var e := Cancel(session, seller);
            match ApplyOrder(s, e)
            case Ok(t) => LeftAs(t, o, OrderEventAfter(s, e, o))
            case Refused(_) => OrderEventAfter(s, e, o) == s.orders[o]
  {
    hide Inv, Orders.Moved, LeftAs, Stock.ReleaseStock, Orders.Cancel, MayWithdraw;
    CancelIs(s, session, seller);
    if session in s.orderReads && s.orderReads[session].id in s.orders {
      var Read(q, seen) := s.orderReads[session];
      var released := s.(listings := Stock.ReleaseStock(s.listings, seen));
      MovedLeaves(released, q, s.orders[q].(status := OrderStatus.Cancelled), o);
    }
  }

  lemma CancelIs(s: State, session: Id, seller: bool)
    ensures Orders.Cancel(s, session, seller).Ok? <==>
              session in s.orderReads && s.orderReads[session].id in s.orders &&
              var q := s.orderReads[session].id;
              Current(s, session, q, s.orders[q].status) && MayWithdraw(s.orders[q].status, seller)
    ensures Orders.Cancel(s, session, seller).Ok? ==>
              var Read(q, seen) := s.orderReads[session];
              Orders.Cancel(s, session, seller).value
              == Orders.Moved(s.(listings := Stock.ReleaseStock(s.listings, seen)), q,
                              s.orders[q].(status := OrderStatus.Cancelled))
  {
    hide Orders.Moved, Stock.ReleaseStock;
  }

  lemma RemoveLeaves(s: State, session: Id, buyer: Id, o: Id)
    requires Inv(s) && o in s.orders
    ensures var e := Remove(session, buyer);
            match ApplyOrder(s, e)
            case Ok(t) => if Deletes(s, Event.Order(e), o) then o !in t.orders else LeftAs(t, o, s.orders[o])
            case Refused(_) => !Deletes(s, Event.Order(e), o)
  {
    hide Inv, Orders.Remove, Stock.ReleaseStock;
    RemoveIs(s, session, buyer);
    if session in s.orderReads && s.orderReads[session].id in s.orders {
      OrderProofs.SeenFacts(s, session);
    }
  }

  lemma RemoveIs(s: State, session: Id, buyer: Id)
    ensures Orders.Remove(s, session, buyer).Ok? <==>
              session in s.orderReads && s.orderReads[session].id in s.orders &&
              var Read(q, seen) := s.orderReads[session];
              Current(s, session, q, OrderStatus.Pending) && seen.checkout.None? && seen.buyer == buyer
    ensures Orders.Remove(s, session, buyer).Ok? ==>
              Orders.Remove(s, session, buyer).value.orders == s.orders - {s.orderReads[session].id}
  {
    hide Stock.ReleaseStock;
  }

  lemma HandoverLeaves(s: State, e: OrderEvent, o: Id)
    requires Inv(s) && o in s.orders && (e.VerifyHandover? || e.CompleteHandover? || e.Fulfil?)
    ensures match ApplyOrder(s, e)
            case Ok(t) => LeftAs(t, o, OrderEventAfter(s, e, o))
            case Refused(_) => OrderEventAfter(s, e, o) == s.orders[o]
  {
    hide Inv, Orders.Moved, LeftAs;
    match e
    case VerifyHandover(q, agent) =>
      if q in s.orders {
        MovedLeaves(s, q, s.orders[q].(handover := Some(Handover(Verified, Some(agent)))), o);
      }
    case CompleteHandover(q, agent) =>
      if q in s.orders {
        OrderProofs.OrderFacts(s, q);
        MovedLeaves(s, q, s.orders[q].(status := Shipped, handover := Some(Handover(HandedOver, Some(agent)))), o);
      }
    case Fulfil(q, now) =>
      if q in s.orders {
        MovedLeaves(s, q, s.orders[q].(status := Fulfilled, fulfilledAt := Some(now)), o);
      }
  }

  lemma OrderEventLeaves(s: State, e: OrderEvent, o: Id)
    requires Inv(s) && o in s.orders
    ensures match ApplyOrder(s, e)
            case Ok(t) => if Deletes(s, Event.Order(e), o) then o !in t.orders else LeftAs(t, o, OrderEventAfter(s, e, o))
            case Refused(_) => !Deletes(s, Event.Order(e), o) && OrderEventAfter(s, e, o) == s.orders[o]
  {
    hide Inv, Orders.Confirm, Orders.Prepare, Orders.Tick, Orders.MarkReady, Orders.Cancel, Orders.Remove;
    hide Orders.VerifyHandover, Orders.CompleteHandover, Orders.Fulfil;
    match e
    case Confirm(session) => ConfirmLeaves(s, session, o);
    case Prepare(session) => PrepareLeaves(s, session, o);
    case Tick(session, ticks) => TickLeaves(s, session, ticks, o);
    case MarkReady(session, list) => MarkReadyLeaves(s, session, list, o);
    case Cancel(session, seller) => CancelLeaves(s, session, seller, o);
    case Remove(session, buyer) => RemoveLeaves(s, session, buyer, o);
    case VerifyHandover(_, _) => HandoverLeaves(s, e, o);
    case CompleteHandover(_, _) => HandoverLeaves(s, e, o);
    case Fulfil(_, _) => HandoverLeaves(s, e, o);
    case _ =>
  }

  /**
   * Every event leaves an order deleted, or as the table above says: nothing else moves an order, fills in its
   * checklist, hands it over or records its delivery, and nobody but its farmer withdraws one that was accepted.
   */
  lemma EveryMove(config: Config, s: State, e: Event, o: Id)
    requires Reachable(config, s) && o in s.orders
    ensures var t := After(config, s, e);
            if Deletes(s, e, o) then o !in t.orders else o in t.orders && t.orders[o] == OrderAfter(s, e, o)
  {
    hide Reachable, Inv, ApplyShop, ApplyOrder, ApplyMoney, OrderEventAfter;
    ReachableOk(config, s);
    OrderOnCheckout(s, o);
    EventWrites(config, s, e);
    if e.Order? {
      OrderEventLeaves(s, e.order, o);
    } else if e.Shop? && Ending(e.shop) {
      EndedOrder(config, s, e.shop, o);
    } else if e.Money? && e.money.Charged? {
      ChargedOrder(config, s, e.money.charge, o);
    } else if e.Shop? && Placing(e.shop) {
      PlacedOrder(config, s, e.shop, o);
    } else {
      assert After(config, s, e).orders == s.orders;
    }
  }

  lemma OrderOnCheckout(s: State, o: Id)
    requires Inv(s) && o in s.orders
    ensures s.orders[o].checkout.Some? ==> s.orders[o].checkout.value in s.checkouts
  {
    hide Inv;
    PaymentSafety.CheckoutTables(s);
    assert OrderFits(s.checkouts, s.orders[o]);
  }
}
