/** The stored status of every request is the derived one, and it only moves forward. */
module SourcingProofs {
  import opened Rows
  import Stock
  import opened Sourcing
  import opened Invariants
  import opened Evolution

  predicate Touches(checkouts: map<Id, Checkout>, order: Order, r: Id) {
    order.checkout.Some? && order.checkout.value in checkouts && checkouts[order.checkout.value].request == Some(r)
  }

  // Neither the checkouts of request `r` nor the orders in them have changed.
  ghost predicate Untouched(r: Id, checkouts: map<Id, Checkout>, orders: map<Id, Order>,
                            checkouts': map<Id, Checkout>, orders': map<Id, Order>)
  {
    && (forall c | c in checkouts && checkouts[c].request == Some(r) :: c in checkouts' && checkouts'[c] == checkouts[c])
    && (forall c | c in checkouts' && checkouts'[c].request == Some(r) :: c in checkouts && checkouts[c] == checkouts'[c])
    && (forall o | o in orders && Touches(checkouts, orders[o], r) ::
          o in orders' && orders'[o].checkout == orders[o].checkout && orders'[o].status == orders[o].status)
    && (forall o | o in orders' && Touches(checkouts', orders'[o], r) ::
          o in orders && orders[o].checkout == orders'[o].checkout && orders[o].status == orders'[o].status)
  }

  lemma ViewKept(row: Request, r: Id, checkouts: map<Id, Checkout>, orders: map<Id, Order>,
                 checkouts': map<Id, Checkout>, orders': map<Id, Order>)
    requires Untouched(r, checkouts, orders, checkouts', orders')
    ensures ViewOf(row, r, checkouts, orders) == ViewOf(row, r, checkouts', orders')
  {
    HasKept(r, checkouts, orders, checkouts', orders', CheckoutStatus.Paid);
    HasKept(r, checkouts, orders, checkouts', orders', CheckoutStatus.AwaitingPayment);
    PaidOrdersKept(r, checkouts, orders, checkouts', orders');
    PaidOrdersKept(r, checkouts', orders', checkouts, orders);
    assert PaidOrders(checkouts, orders, r) == PaidOrders(checkouts', orders', r);
  }

  lemma HasKept(r: Id, checkouts: map<Id, Checkout>, orders: map<Id, Order>, checkouts': map<Id, Checkout>,
                orders': map<Id, Order>, status: CheckoutStatus)
    requires Untouched(r, checkouts, orders, checkouts', orders')
    ensures Has(checkouts, r, status) <==> Has(checkouts', r, status)
  {
  }

  lemma PaidOrdersKept(r: Id, checkouts: map<Id, Checkout>, orders: map<Id, Order>,
                       checkouts': map<Id, Checkout>, orders': map<Id, Order>)
    requires Untouched(r, checkouts, orders, checkouts', orders')
    ensures PaidOrders(checkouts, orders, r) <= PaidOrders(checkouts', orders', r)
  {
    forall st | st in PaidOrders(checkouts, orders, r)
      ensures st in PaidOrders(checkouts', orders', r)
    {
      var o :| o in orders && OrderOfPaid(checkouts, orders[o], r) && orders[o].status == st;
      assert Touches(checkouts, orders[o], r);
      assert OrderOfPaid(checkouts', orders'[o], r);
    }
  }

  lemma OthersSynced(stale: Option<Id>, requests: map<Id, Request>, checkouts: map<Id, Checkout>,
                     orders: map<Id, Order>, checkouts': map<Id, Checkout>, orders': map<Id, Order>)
    requires SyncedBut(None, requests, checkouts, orders)
    requires forall r | r in requests && stale != Some(r) :: Untouched(r, checkouts, orders, checkouts', orders')
    ensures SyncedBut(stale, requests, checkouts', orders')
  {
    forall r | r in requests && stale != Some(r)
      ensures SyncedRow(requests[r], r, checkouts', orders')
    {
      ViewKept(requests[r], r, checkouts, orders, checkouts', orders');
    }
  }

  lemma RowResynced(row: Request, r: Id, checkouts: map<Id, Checkout>, orders: map<Id, Order>)
    ensures SyncedRow(Resynced(row, ViewOf(row, r, checkouts, orders)), r, checkouts, orders)
  {
    var view := ViewOf(row, r, checkouts, orders);
    var row' := Resynced(row, view);
    assert ViewOf(row', r, checkouts, orders) == view.(closed := row'.closed);
  }

  lemma OneResynced(r: Id, row: Request, requests: map<Id, Request>, checkouts: map<Id, Checkout>,
                    orders: map<Id, Order>)
    requires SyncedBut(Some(r), requests, checkouts, orders) && SyncedRow(row, r, checkouts, orders)
    ensures SyncedBut(None, requests[r := row], checkouts, orders)
  {
  }

  lemma AllResynced(stale: Option<Id>, s: State)
    requires SyncedBut(stale, s.requests, s.checkouts, s.orders)
    ensures SyncedBut(None, Sync(s, stale).requests, s.checkouts, s.orders)
  {
    if stale.Some? && stale.value in s.requests {
      var r := stale.value;
      RowResynced(s.requests[r], r, s.checkouts, s.orders);
      OneResynced(r, Sync(s, stale).requests[r], s.requests, s.checkouts, s.orders);
    }
  }

  lemma SyncIs(s: State, r: Id)
    requires r in s.requests
    ensures Sync(s, Some(r))
            == s.(requests := s.requests[r := Resynced(s.requests[r], ViewOf(s.requests[r], r, s.checkouts, s.orders))])
  {
    hide ViewOf, Resynced;
  }

  lemma SyncTouchesStatusOnly(s: State, stale: Option<Id>)
    ensures Sync(s, stale) == s.(requests := Sync(s, stale).requests)
    ensures Sync(s, stale).requests.Keys == s.requests.Keys
    ensures forall r | r in s.requests ::
              var after := Sync(s, stale).requests[r];
              s.requests[r] == after.(status := s.requests[r].status, closed := s.requests[r].closed)
  {
    hide ViewOf, DeriveRequestStatus, Sync;
    if stale.Some? && stale.value in s.requests {
      SyncIs(s, stale.value);
    } else {
      SyncNothing(s, stale);
    }
  }

  lemma SyncNothing(s: State, stale: Option<Id>)
    requires stale.None? || stale.value !in s.requests
    ensures Sync(s, stale) == s
  {
  }

  lemma SyncNone(s: State)
    ensures Sync(s, None) == s
  {
  }

  lemma RefsResynced(s: State, stale: Option<Id>)
    requires RequestRefs(s.requests, s.checkouts)
    ensures RequestRefs(Sync(s, stale).requests, s.checkouts)
  {
    hide OneLiveEach, Sync;
    SyncTouchesStatusOnly(s, stale);
  }

  /** Rewriting the stale request's status is all that was missing. */
  lemma SyncRestores(stale: Option<Id>, s: State)
    requires InvBut(stale, s)
    ensures Inv(Sync(s, stale))
  {
    hide Stock.StockOk, CheckoutsOk, HandoversOk, ReadsOk, PaymentsOk, RefundsOk, PayoutsOk, Excluded, RequestRefs;
    hide SyncedBut, Sync, CartsOk;
    AllResynced(stale, s);
    RefsResynced(s, stale);
    SyncTouchesStatusOnly(s, stale);
  }

  // An order of a paid checkout was there before, and one that was there still is.
  lemma PaidOrderBack(r: Id, next: Id, checkouts: map<Id, Checkout>, orders: map<Id, Order>,
                      checkouts': map<Id, Checkout>, orders': map<Id, Order>, o: Id)
    requires OrdersEvolve(orders, orders', next) && CheckoutsEvolve(checkouts, checkouts')
    requires forall c | c in checkouts :: c < next
    requires OneLiveEach(checkouts')
    requires Has(checkouts, r, CheckoutStatus.Paid)
    requires o in orders' && OrderOfPaid(checkouts', orders'[o], r)
    ensures o in orders && OrderOfPaid(checkouts, orders[o], r) && OrderReaches(orders[o].status, orders'[o].status)
  {
    var c :| c in checkouts && checkouts[c].request == Some(r) && checkouts[c].status.Paid?;
    assert c == orders'[o].checkout.value;
  }

  lemma PaidOrderOn(r: Id, next: Id, checkouts: map<Id, Checkout>, orders: map<Id, Order>,
                    checkouts': map<Id, Checkout>, orders': map<Id, Order>, o: Id)
    requires OrdersEvolve(orders, orders', next) && CheckoutsEvolve(checkouts, checkouts')
    requires o in orders && OrderOfPaid(checkouts, orders[o], r)
    ensures o in orders' && OrderOfPaid(checkouts', orders'[o], r) && OrderReaches(orders[o].status, orders'[o].status)
  {
  }

  /** However its rows evolve, the status derived for a request that is not closed by hand only moves on. */
  lemma RequestAdvances(row: Request, row': Request, r: Id, next: Id, checkouts: map<Id, Checkout>,
                        orders: map<Id, Order>, checkouts': map<Id, Checkout>, orders': map<Id, Order>)
    requires SyncedRow(row, r, checkouts, orders) && row'.closed == row.closed
    requires OrdersEvolve(orders, orders', next) && CheckoutsEvolve(checkouts, checkouts')
    requires forall c | c in checkouts :: c < next
    requires OneLiveEach(checkouts')
    ensures RequestReaches(row.status, DeriveRequestStatus(ViewOf(row', r, checkouts', orders')))
  {
    if Has(checkouts, r, CheckoutStatus.Paid) && !row.closed {
      assert Has(checkouts', r, CheckoutStatus.Paid);
      MovingStays(r, next, checkouts, orders, checkouts', orders');
      DoneStays(r, next, checkouts, orders, checkouts', orders');
      StatusesAdvance(ViewOf(row, r, checkouts, orders), ViewOf(row', r, checkouts', orders'));
    }
  }

  lemma MovingStays(r: Id, next: Id, checkouts: map<Id, Checkout>, orders: map<Id, Order>,
                    checkouts': map<Id, Checkout>, orders': map<Id, Order>)
    requires OrdersEvolve(orders, orders', next) && CheckoutsEvolve(checkouts, checkouts')
    ensures AnyMoving(PaidOrders(checkouts, orders, r)) ==> AnyMoving(PaidOrders(checkouts', orders', r))
    ensures Fulfilled in PaidOrders(checkouts, orders, r) ==> Fulfilled in PaidOrders(checkouts', orders', r)
  {
    forall o | o in orders && OrderOfPaid(checkouts, orders[o], r)
      ensures o in orders' && orders'[o].status in PaidOrders(checkouts', orders', r)
      ensures OrderReaches(orders[o].status, orders'[o].status)
    {
      PaidOrderOn(r, next, checkouts, orders, checkouts', orders', o);
    }
  }

  lemma DoneStays(r: Id, next: Id, checkouts: map<Id, Checkout>, orders: map<Id, Order>,
                  checkouts': map<Id, Checkout>, orders': map<Id, Order>)
    requires OrdersEvolve(orders, orders', next) && CheckoutsEvolve(checkouts, checkouts')
    requires forall c | c in checkouts :: c < next
    requires OneLiveEach(checkouts') && Has(checkouts, r, CheckoutStatus.Paid)
    ensures AllDone(PaidOrders(checkouts, orders, r)) ==> AllDone(PaidOrders(checkouts', orders', r))
  {
    forall o | o in orders' && OrderOfPaid(checkouts', orders'[o], r)
      ensures o in orders && orders[o].status in PaidOrders(checkouts, orders, r)
      ensures OrderReaches(orders[o].status, orders'[o].status)
    {
      PaidOrderBack(r, next, checkouts, orders, checkouts', orders', o);
    }
  }

  lemma StatusesAdvance(view: Snapshot, view': Snapshot)
    requires view.paid.Some? && view'.paid.Some? && !view.closed && !view'.closed && !AllCancelled(view.paid)
    requires AnyMoving(view.paid.value) ==> AnyMoving(view'.paid.value)
    requires Fulfilled in view.paid.value ==> Fulfilled in view'.paid.value
    requires AllDone(view.paid.value) ==> AllDone(view'.paid.value)
    ensures RequestReaches(DeriveRequestStatus(view), DeriveRequestStatus(view'))
  {
  }

  /** Across any evolution of its rows, the rewritten status of every request has only moved on. */
  lemma RequestsAdvance(s: State, t: State, stale: Option<Id>)
    requires SyncedBut(None, s.requests, s.checkouts, s.orders) && RequestRefs(t.requests, t.checkouts)
    requires t.requests == s.requests
    requires forall c | c in s.checkouts :: c < s.next
    requires OrdersEvolve(s.orders, t.orders, s.next) && CheckoutsEvolve(s.checkouts, t.checkouts)
    ensures RequestsEvolve(s.requests, Sync(t, stale).requests)
  {
    hide SyncedRow, ViewOf, DeriveRequestStatus, OrdersEvolve, CheckoutsEvolve;
    if stale.Some? && stale.value in s.requests {
      var r := stale.value;
      RequestAdvances(s.requests[r], s.requests[r], r, s.next, s.checkouts, s.orders, t.checkouts, t.orders);
    }
  }

  /** A transaction that leaves only its request's status to rewrite commits once it has done so. */
  lemma Commits(s: State, t: State, stale: Option<Id>)
    requires Inv(s) && InvBut(stale, t) && t.requests == s.requests && RowsEvolve(s, t)
    ensures Inv(Sync(t, stale)) && Evolves(s, Sync(t, stale))
  {
    hide Stock.StockOk, CheckoutsOk, HandoversOk, ReadsOk, PaymentsOk, RefundsOk, PayoutsOk, Excluded, RequestRefs;
    hide SyncedBut, Sync, CartsOk, OrdersEvolve, CheckoutsEvolve, PaymentsEvolve, RefundsEvolve, PayoutsEvolve, ItemsEvolve;
    SyncRestores(stale, t);
    SyncTouchesStatusOnly(t, stale);
    RequestsAdvance(s, t, stale);
  }
}
