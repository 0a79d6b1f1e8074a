/** What the steps on a paid order keep: whatever one order's move costs is paid in the same transaction. */
module OrderProofs {
  import opened Rows
  import opened Sums
  import opened Stock
  import opened Orders
  import opened Sourcing
  import opened Invariants
  import opened Evolution
  import opened SourcingProofs
  import opened StockProofs

  lemma MoveEvolves(orders: map<Id, Order>, o: Id, row: Order, next: Id)
    requires o in orders && SameFacts(orders[o], row) && OrderReaches(orders[o].status, row.status)
    ensures OrdersEvolve(orders, orders[o := row], next)
  {
  }

  lemma MoveKeepsCheckouts(checkouts: map<Id, Checkout>, orders: map<Id, Order>, o: Id, row: Order)
    requires CheckoutsOk(checkouts, orders) && o in orders
    requires SameFacts(orders[o], row) && OrderReaches(orders[o].status, row.status)
    requires !orders[o].status.AwaitingPayment?
    ensures CheckoutsOk(checkouts, orders[o := row])
  {
    forall c | c in checkouts
      ensures checkouts[c].subtotal == Sum(orders[o := row], PricedOn(c))
    {
      SumUpdate(orders, PricedOn(c), o, row);
    }
  }

  lemma MoveLeavesRequest(r: Id, checkouts: map<Id, Checkout>, orders: map<Id, Order>, o: Id, row: Order)
    requires o in orders && row.checkout == orders[o].checkout && !Touches(checkouts, row, r)
    ensures Untouched(r, checkouts, orders, checkouts, orders[o := row])
  {
  }

  lemma MoveKeepsOthersSynced(requests: map<Id, Request>, checkouts: map<Id, Checkout>, orders: map<Id, Order>, o: Id,
                              row: Order, stale: Option<Id>)
    requires SyncedBut(None, requests, checkouts, orders) && o in orders && row.checkout == orders[o].checkout
    requires stale.None? ==> row.checkout.None? || row.checkout.value !in checkouts ||
                             checkouts[row.checkout.value].request.None?
    requires stale.Some? ==> Touches(checkouts, row, stale.value)
    ensures SyncedBut(stale, requests, checkouts, orders[o := row])
  {
    hide SyncedBut, Untouched;
    forall r | r in requests && stale != Some(r) {
      MoveLeavesRequest(r, checkouts, orders, o, row);
    }
    OthersSynced(stale, requests, checkouts, orders, checkouts, orders[o := row]);
  }

  lemma MoveKeepsHandovers(orders: map<Id, Order>, clusters: map<Id, Id>, o: Id, row: Order)
    requires HandoversOk(orders, clusters) && Handled(row) && (row.farm in clusters ==> !Agentless(row))
    ensures HandoversOk(orders[o := row], clusters)
  {
  }

  // Facts unchanged, forward, out of the unpaid stage, and still in step with its handover.
  ghost predicate MayMove(s: State, o: Id, row: Order) {
    && o in s.orders
    && SameFacts(s.orders[o], row) && OrderReaches(s.orders[o].status, row.status)
    && !s.orders[o].status.AwaitingPayment?
    && Handled(row) && (row.farm in s.clusters ==> !Agentless(row))
  }

  // One order's move, with its listing's counters, keeps everything but its request's stored status.
  lemma MoveKeeps(s: State, listings: map<Id, Listing>, o: Id, row: Order)
    requires Inv(s) && MayMove(s, o, row)
    requires StockOk(listings, s.orders[o := row]) && listings.Keys == s.listings.Keys
    ensures var t := s.(listings := listings, orders := s.orders[o := row]);
            InvBut(RequestOf(s, row), t) && OrdersEvolve(s.orders, t.orders, s.next)
  {
    hide StockOk, CheckoutsOk, HandoversOk, ReadsOk, PaymentsOk, RefundsOk, PayoutsOk, Excluded, RequestRefs, SyncedBut;
    hide CartsOk, Handled;
    var t := s.(listings := listings, orders := s.orders[o := row]);
    MoveEvolves(s.orders, o, row, s.next);
    MoveKeepsCheckouts(s.checkouts, s.orders, o, row);
    MoveKeepsHandovers(s.orders, s.clusters, o, row);
    ReadsKept(s.orderReads, s.orders, t.orders, s.next, s.next);
    MoneyKept(s, t);
    MoveKeepsOthersSynced(s.requests, s.checkouts, s.orders, o, row, RequestOf(s, row));
  }

  lemma MovedKeeps(s: State, listings: map<Id, Listing>, o: Id, row: Order)
    requires Inv(s) && MayMove(s, o, row)
    requires StockOk(listings, s.orders[o := row]) && listings.Keys == s.listings.Keys
    ensures Inv(Moved(s.(listings := listings), o, row))
    ensures Evolves(s, Moved(s.(listings := listings), o, row))
  {
    hide InvBut, Sync, Evolves, OrdersEvolve;
    var t := s.(listings := listings, orders := s.orders[o := row]);
    MoveKeeps(s, listings, o, row);
    Commits(s, t, RequestOf(s, row));
  }

  // ----- The steps -----

  lemma SeenFacts(s: State, session: Id)
    requires Inv(s) && session in s.orderReads && s.orderReads[session].id in s.orders
    ensures SameFacts(s.orderReads[session].row, s.orders[s.orderReads[session].id])
  {
    hide StockOk, CheckoutsOk, HandoversOk, PaymentsOk, RefundsOk, PayoutsOk, Excluded, RequestRefs, SyncedBut, CartsOk;
  }

  lemma OrderFacts(s: State, o: Id)
    requires Inv(s) && o in s.orders
    ensures Handled(s.orders[o]) && (s.orders[o].farm in s.clusters ==> !Agentless(s.orders[o]))
    ensures s.orders[o].listing in s.listings && s.orders[o].quantity > 0
    ensures StockOk(s.listings, s.orders)
  {
    hide CheckoutsOk, PaymentsOk, RefundsOk, PayoutsOk, Excluded, RequestRefs, SyncedBut, CartsOk;
  }

  // The counters are settled before the order moves, and conservation pays for the difference.
  lemma ConfirmedListing(listings: map<Id, Listing>, orders: map<Id, Order>, o: Id)
    requires StockOk(listings, orders) && o in orders && orders[o].status.Pending?
    ensures var l := listings[orders[o].listing];
            StockOk(listings[orders[o].listing := Restatused(l.(actual := l.actual - orders[o].quantity))],
                    orders[o := orders[o].(status := OrderStatus.Confirmed)])
  {
    var l := listings[orders[o].listing];
    MoveKeepsStock(listings, listings[orders[o].listing := Restatused(l.(actual := l.actual - orders[o].quantity))],
                   orders, o, orders[o].(status := OrderStatus.Confirmed));
  }

  lemma CancelledListing(listings: map<Id, Listing>, orders: map<Id, Order>, o: Id, seen: Order)
    requires StockOk(listings, orders) && o in orders && !orders[o].status.Cancelled?
    requires SameFacts(seen, orders[o]) && seen.status == orders[o].status
    ensures StockOk(ReleaseStock(listings, seen), orders[o := orders[o].(status := OrderStatus.Cancelled)])
  {
    MoveKeepsStock(listings, ReleaseStock(listings, seen), orders, o, orders[o].(status := OrderStatus.Cancelled));
  }

  lemma ConfirmKeeps(s: State, session: Id)
    requires Inv(s) && Confirm(s, session).Ok?
    ensures Inv(Confirm(s, session).value) && Evolves(s, Confirm(s, session).value)
  {
    hide InvBut, Evolves, Sync, StockOk;
    var o := s.orderReads[session].id;
    SeenFacts(s, session);
    OrderFacts(s, o);
    ConfirmedListing(s.listings, s.orders, o);
    var l := s.listings[s.orders[o].listing];
    MovedKeeps(s, s.listings[s.orders[o].listing := Restatused(l.(actual := l.actual - s.orders[o].quantity))], o,
               s.orders[o].(status := OrderStatus.Confirmed));
  }

  lemma StillMoveKeepsStock(listings: map<Id, Listing>, orders: map<Id, Order>, o: Id, row: Order)
    requires StockOk(listings, orders) && o in orders && SameFacts(orders[o], row)
    requires Uncommitted(orders[o].status) == Uncommitted(row.status)
    requires orders[o].status.Cancelled? == row.status.Cancelled?
    ensures StockOk(listings, orders[o := row])
  {
    RelabelKeepsStock(listings, orders, orders[o := row]);
  }

  // Steps between confirmation and delivery cost no stock.
  lemma StillMoveKeeps(s: State, o: Id, row: Order)
    requires Inv(s) && MayMove(s, o, row)
    requires Uncommitted(s.orders[o].status) == Uncommitted(row.status)
    requires s.orders[o].status.Cancelled? == row.status.Cancelled?
    ensures Inv(Moved(s, o, row)) && Evolves(s, Moved(s, o, row))
  {
    hide InvBut, Evolves, Sync, StockOk, Handled;
    OrderFacts(s, o);
    StillMoveKeepsStock(s.listings, s.orders, o, row);
    MovedKeeps(s, s.listings, o, row);
    assert s.(listings := s.listings) == s;
  }

  lemma PrepareKeeps(s: State, session: Id)
    requires Inv(s) && Prepare(s, session).Ok?
    ensures Inv(Prepare(s, session).value) && Evolves(s, Prepare(s, session).value)
  {
    hide InvBut, Evolves, Moved, StockOk;
    var o := s.orderReads[session].id;
    OrderFacts(s, o);
    StillMoveKeeps(s, o, s.orders[o].(status := Preparing, checklist := Some(Checklist(false, false, false, false))));
  }

  // ----- Changes no stock count, price or status depends on -----

  ghost predicate SameStatuses(orders: map<Id, Order>, orders': map<Id, Order>) {
    && orders'.Keys == orders.Keys
    && forall o | o in orders :: SameFacts(orders[o], orders'[o]) && orders'[o].status == orders[o].status
  }

  lemma RelabelKeepsCheckouts(checkouts: map<Id, Checkout>, orders: map<Id, Order>, orders': map<Id, Order>)
    requires CheckoutsOk(checkouts, orders) && SameStatuses(orders, orders')
    ensures CheckoutsOk(checkouts, orders')
  {
    forall c | c in checkouts
      ensures checkouts[c].subtotal == Sum(orders', PricedOn(c))
    {
      SumSame(orders, PricedOn(c), orders', PricedOn(c));
    }
  }

  lemma RelabelEvolves(orders: map<Id, Order>, orders': map<Id, Order>, next: Id)
    requires SameStatuses(orders, orders')
    ensures OrdersEvolve(orders, orders', next)
  {
  }

  lemma RelabelKeepsSynced(requests: map<Id, Request>, checkouts: map<Id, Checkout>, orders: map<Id, Order>,
                           orders': map<Id, Order>)
    requires SyncedBut(None, requests, checkouts, orders) && SameStatuses(orders, orders')
    ensures SyncedBut(None, requests, checkouts, orders')
  {
    OthersSynced(None, requests, checkouts, orders, checkouts, orders');
  }

  lemma RelabelKeeps(s: State, orders: map<Id, Order>, verified: set<Id>, clusters: map<Id, Id>)
    requires Inv(s) && SameStatuses(s.orders, orders) && HandoversOk(orders, clusters)
    ensures var t := s.(orders := orders, verified := verified, clusters := clusters); Inv(t) && Evolves(s, t)
  {
    hide StockOk, CheckoutsOk, HandoversOk, ReadsOk, PaymentsOk, RefundsOk, PayoutsOk, Excluded, RequestRefs, SyncedBut;
    hide CartsOk, Evolves, OrdersEvolve, Sync;
    var t := s.(orders := orders, verified := verified, clusters := clusters);
    RelabelEvolves(s.orders, orders, s.next);
    RelabelKeepsStock(s.listings, s.orders, orders);
    RelabelKeepsCheckouts(s.checkouts, s.orders, orders);
    ReadsKept(s.orderReads, s.orders, orders, s.next, s.next);
    MoneyKept(s, t);
    RelabelKeepsSynced(s.requests, s.checkouts, s.orders, orders);
    Commits(s, t, None);
    SyncNone(t);
  }

  // Ticking changes nothing a sourcing request can see, so its status needs no rewriting.
  lemma TickKeeps(s: State, session: Id, ticks: Ticks)
    requires Inv(s) && Tick(s, session, ticks).Ok?
    ensures Inv(Tick(s, session, ticks).value) && Evolves(s, Tick(s, session, ticks).value)
  {
    hide InvBut, Evolves, HandoversOk, SameStatuses, Handled;
    var t := Tick(s, session, ticks).value;
    TickedHandovers(s, session, ticks);
    RelabelKeeps(s, t.orders, s.verified, s.clusters);
  }

  lemma TickedHandovers(s: State, session: Id, ticks: Ticks)
    requires Inv(s) && Tick(s, session, ticks).Ok?
    ensures HandoversOk(Tick(s, session, ticks).value.orders, s.clusters)
    ensures SameStatuses(s.orders, Tick(s, session, ticks).value.orders)
  {
    hide StockOk, CheckoutsOk, ReadsOk, PaymentsOk, RefundsOk, PayoutsOk, Excluded, RequestRefs, SyncedBut, CartsOk;
  }

  lemma ApprovedHandovers(s: State, farm: Id, agent: Id)
    requires Inv(s)
    ensures HandoversOk(FarmApproved(s, farm, agent).orders, FarmApproved(s, farm, agent).clusters)
    ensures SameStatuses(s.orders, FarmApproved(s, farm, agent).orders)
  {
    hide StockOk, CheckoutsOk, ReadsOk, PaymentsOk, RefundsOk, PayoutsOk, Excluded, RequestRefs, SyncedBut, CartsOk;
  }

  lemma FarmApprovedKeeps(s: State, farm: Id, agent: Id)
    requires Inv(s)
    ensures Inv(FarmApproved(s, farm, agent)) && Evolves(s, FarmApproved(s, farm, agent))
  {
    hide InvBut, Evolves, HandoversOk, SameStatuses;
    var t := FarmApproved(s, farm, agent);
    ApprovedHandovers(s, farm, agent);
    RelabelKeeps(s, t.orders, t.verified, t.clusters);
  }

  lemma FarmUnverifiedKeeps(s: State, farm: Id, leaves: bool)
    requires Inv(s)
    ensures Inv(FarmUnverified(s, farm, leaves)) && Evolves(s, FarmUnverified(s, farm, leaves))
  {
    hide InvBut, Evolves, HandoversOk;
    var t := FarmUnverified(s, farm, leaves);
    UnverifiedHandovers(s, farm, leaves);
    RelabelKeeps(s, s.orders, t.verified, t.clusters);
  }

  lemma UnverifiedHandovers(s: State, farm: Id, leaves: bool)
    requires Inv(s)
    ensures HandoversOk(s.orders, FarmUnverified(s, farm, leaves).clusters)
  {
    hide StockOk, CheckoutsOk, ReadsOk, PaymentsOk, RefundsOk, PayoutsOk, Excluded, RequestRefs, SyncedBut, CartsOk;
  }

  // ----- Deleting an order placed before checkouts existed -----

  lemma RemoveKeepsCheckouts(checkouts: map<Id, Checkout>, orders: map<Id, Order>, o: Id)
    requires CheckoutsOk(checkouts, orders) && o in orders && orders[o].checkout.None?
    ensures CheckoutsOk(checkouts, orders - {o})
  {
    forall c | c in checkouts
      ensures checkouts[c].subtotal == Sum(orders - {o}, PricedOn(c))
    {
      SumTake(orders, PricedOn(c), o);
    }
  }

  lemma RemoveKeepsSynced(requests: map<Id, Request>, checkouts: map<Id, Checkout>, orders: map<Id, Order>, o: Id)
    requires SyncedBut(None, requests, checkouts, orders) && o in orders && orders[o].checkout.None?
    ensures SyncedBut(None, requests, checkouts, orders - {o})
  {
    OthersSynced(None, requests, checkouts, orders, checkouts, orders - {o});
  }

  lemma RemoveEvolves(orders: map<Id, Order>, clusters: map<Id, Id>, o: Id, next: Id)
    requires HandoversOk(orders, clusters) && o in orders && orders[o].checkout.None?
    ensures OrdersEvolve(orders, orders - {o}, next) && HandoversOk(orders - {o}, clusters)
  {
  }

  lemma ReleaseSame(listings: map<Id, Listing>, a: Order, b: Order)
    requires a.listing == b.listing && a.quantity == b.quantity && Uncommitted(a.status) == Uncommitted(b.status)
    ensures ReleaseStock(listings, a) == ReleaseStock(listings, b)
    ensures ReleaseStock(listings, a).Keys == listings.Keys
  {
    hide DeriveStatus;
  }

  lemma RemovedListing(listings: map<Id, Listing>, orders: map<Id, Order>, o: Id, seen: Order)
    requires StockOk(listings, orders) && o in orders && SameFacts(seen, orders[o])
    requires seen.status.Pending? && orders[o].status.Pending?
    ensures StockOk(ReleaseStock(listings, seen), orders - {o})
    ensures ReleaseStock(listings, seen).Keys == listings.Keys
  {
    hide StockOk, ReleaseStock;
    ReleaseSame(listings, seen, orders[o]);
    RemoveKeepsStock(listings, orders, o);
  }

  lemma RemoveKeeps(s: State, session: Id, buyer: Id)
    requires Inv(s) && Remove(s, session, buyer).Ok?
    ensures Inv(Remove(s, session, buyer).value) && Evolves(s, Remove(s, session, buyer).value)
  {
    hide StockOk, CheckoutsOk, HandoversOk, ReadsOk, PaymentsOk, RefundsOk, PayoutsOk, Excluded, RequestRefs, SyncedBut;
    hide CartsOk, Evolves, OrdersEvolve, Sync;
    var t := Remove(s, session, buyer).value;
    var Read(o, seen) := s.orderReads[session];
    SeenFacts(s, session);
    RemovedListing(s.listings, s.orders, o, seen);
    RemoveKeepsCheckouts(s.checkouts, s.orders, o);
    RemoveKeepsSynced(s.requests, s.checkouts, s.orders, o);
    RemoveEvolves(s.orders, s.clusters, o, s.next);
    ReadsKept(s.orderReads, s.orders, t.orders, s.next, s.next);
    MoneyKept(s, t);
    Commits(s, t, None);
    SyncNone(t);
  }

  lemma ReadOrderKeeps(s: State, session: Id, o: Id)
    requires Inv(s) && ReadOrder(s, session, o).Ok?
    ensures Inv(ReadOrder(s, session, o).value) && Evolves(s, ReadOrder(s, session, o).value)
  {
    hide StockOk, CheckoutsOk, HandoversOk, PaymentsOk, RefundsOk, PayoutsOk, Excluded, RequestRefs, SyncedBut, CartsOk;
  }

  lemma MarkReadyKeeps(s: State, session: Id, list: Id)
    requires Inv(s) && MarkReady(s, session, list).Ok?
    ensures Inv(MarkReady(s, session, list).value) && Evolves(s, MarkReady(s, session, list).value)
  {
    hide InvBut, Evolves, Moved, StockOk;
    var o := s.orderReads[session].id;
    SeenFacts(s, session);
    OrderFacts(s, o);
    var handover := Handover(HandoverStatus.Pending, AgentOf(s.clusters, s.orders[o].farm));
    StillMoveKeeps(s, o, s.orders[o].(status := Ready, handover := Some(handover)));
  }

  lemma CancelKeeps(s: State, session: Id, seller: bool)
    requires Inv(s) && Cancel(s, session, seller).Ok?
    ensures Inv(Cancel(s, session, seller).value) && Evolves(s, Cancel(s, session, seller).value)
  {
    hide InvBut, Evolves, Sync, StockOk;
    var Read(o, seen) := s.orderReads[session];
    SeenFacts(s, session);
    OrderFacts(s, o);
    CancelledListing(s.listings, s.orders, o, seen);
    MovedKeeps(s, ReleaseStock(s.listings, seen), o, s.orders[o].(status := OrderStatus.Cancelled));
  }

  lemma VerifyHandoverKeeps(s: State, o: Id, agent: Id)
    requires Inv(s) && VerifyHandover(s, o, agent).Ok?
    ensures Inv(VerifyHandover(s, o, agent).value) && Evolves(s, VerifyHandover(s, o, agent).value)
  {
    hide InvBut, Evolves, Moved, StockOk;
    OrderFacts(s, o);
    StillMoveKeeps(s, o, s.orders[o].(handover := Some(Handover(Verified, Some(agent)))));
  }

  lemma CompleteHandoverKeeps(s: State, o: Id, agent: Id)
    requires Inv(s) && CompleteHandover(s, o, agent).Ok?
    ensures Inv(CompleteHandover(s, o, agent).value) && Evolves(s, CompleteHandover(s, o, agent).value)
  {
    hide InvBut, Evolves, Moved, StockOk;
    OrderFacts(s, o);
    StillMoveKeeps(s, o, s.orders[o].(status := Shipped, handover := Some(Handover(HandedOver, Some(agent)))));
  }

  lemma FulfilKeeps(s: State, o: Id, now: int)
    requires Inv(s) && Fulfil(s, o, now).Ok?
    ensures Inv(Fulfil(s, o, now).value) && Evolves(s, Fulfil(s, o, now).value)
  {
    hide InvBut, Evolves, Moved, StockOk;
    OrderFacts(s, o);
    StillMoveKeeps(s, o, s.orders[o].(status := Fulfilled, fulfilledAt := Some(now)));
  }
}
