/** The invariants that placing, cancelling and expiring checkouts keep. */
module CheckoutProofs {
  import opened Rows
  import opened Sums
  import opened Money
  import opened Ids
  import opened Stock
  import opened Sourcing
  import opened Checkouts
  import opened Invariants
  import opened Evolution
  import opened SourcingProofs
  import opened StockProofs

  // ----- Placing -----

  lemma {:induction false} ReserveFacts(listings: map<Id, Listing>, verified: set<Id>, lines: seq<Line>)
    requires ReserveAll(listings, verified, lines).Some?
    requires forall l | l in listings :: listings[l].price > 0
    requires forall i | 0 <= i < |lines| :: lines[i].quantity > 0
    ensures var r := ReserveAll(listings, verified, lines).value;
            && r.listings.Keys == listings.Keys
            && (forall l | l in listings :: r.listings[l].price == listings[l].price)
            && (forall i | 0 <= i < |lines| :: lines[i].listing in listings && r.lines[i].total > 0
                  && r.lines[i].listing == lines[i].listing && r.lines[i].quantity == lines[i].quantity
                  && r.lines[i].total == listings[lines[i].listing].price * lines[i].quantity)
  {
    if lines != [] {
      var n := |lines| - 1;
      ReserveFacts(listings, verified, lines[..n]);
      var before := ReserveAll(listings, verified, lines[..n]).value;
      var r := ReserveAll(listings, verified, lines).value;
      MulPositive(listings[lines[n].listing].price, lines[n].quantity);
      forall i | 0 <= i < n
        ensures r.lines[i] == before.lines[i] && lines[..n][i] == lines[i]
      {
      }
    }
  }

  lemma {:induction false} SubtotalPositive(lines: seq<OrderLine>)
    requires lines != [] && forall i | 0 <= i < |lines| :: lines[i].total > 0
    ensures Subtotal(lines) > 0
  {
  }

  lemma NewOrderPriced(line: OrderLine, c: Id, buyer: Id, d: Id)
    ensures PricedOn(d)(NewOrder(line, c, buyer)) == if d == c then line.total else 0
  {
  }

  /** The orders added for a checkout are priced at its subtotal; no other checkout's sum moves. */
  lemma {:induction false} AddedPriced(orders: map<Id, Order>, lines: seq<OrderLine>, c: Id, buyer: Id, first: Id,
                                       d: Id)
    requires forall o | o in orders :: o < first
    ensures Sum(AddOrders(orders, lines, c, buyer, first), PricedOn(d))
            == Sum(orders, PricedOn(d)) + (if d == c then Subtotal(lines) else 0)
  {
    hide NewOrder, PricedOn;
    if lines != [] {
      var n := |lines| - 1;
      var o: Id := first + n;
      AddedPriced(orders, lines[..n], c, buyer, first, d);
      AddedIds(orders, lines[..n], c, buyer, first);
      SumInsert(AddOrders(orders, lines[..n], c, buyer, first), PricedOn(d), o, NewOrder(lines[n], c, buyer));
      NewOrderPriced(lines[n], c, buyer, d);
    }
  }

  // A table with the orders of a new checkout added.
  ghost predicate Added(orders: map<Id, Order>, orders': map<Id, Order>, c: Id, next: Id, next': Id) {
    && (forall o | o in orders :: o in orders' && orders'[o] == orders[o])
    && (forall o | o in orders' && o !in orders ::
          && next <= o < next' && orders'[o].checkout == Some(c) && orders'[o].status.AwaitingPayment?
          && orders'[o].total > 0 && orders'[o].checklist.None? && orders'[o].handover.None?)
  }

  lemma AddOrdersAdds(orders: map<Id, Order>, lines: seq<OrderLine>, c: Id, buyer: Id, first: Id)
    requires forall o | o in orders :: o < first
    requires forall i | 0 <= i < |lines| :: lines[i].total > 0
    ensures Added(orders, AddOrders(orders, lines, c, buyer, first), c, first, first + |lines|)
  {
    AddedIds(orders, lines, c, buyer, first);
  }

  lemma AddedFits(checkouts: map<Id, Checkout>, orders: map<Id, Order>, orders': map<Id, Order>, c: Id, row: Checkout,
                  next: Id, next': Id)
    requires CheckoutsOk(checkouts, orders) && Added(orders, orders', c, next, next') && c !in checkouts
    requires row.status.AwaitingPayment?
    ensures forall o | o in orders' :: OrderFits(checkouts[c := row], orders'[o])
  {
    hide PricedOn;
    forall o | o in orders'
      ensures OrderFits(checkouts[c := row], orders'[o])
    {
      if o in orders {
        assert OrderFits(checkouts, orders[o]);
      }
    }
  }

  lemma AddedKeepsCheckouts(checkouts: map<Id, Checkout>, orders: map<Id, Order>, orders': map<Id, Order>, c: Id,
                            row: Checkout, next: Id, next': Id)
    requires CheckoutsOk(checkouts, orders) && Added(orders, orders', c, next, next') && c !in checkouts
    requires row.status.AwaitingPayment? && row.subtotal > 0
    requires row.total == row.subtotal + row.deliveryFee + row.serviceFee
    requires !HasKey(checkouts, row.buyer, row.key)
    requires row.subtotal == Sum(orders', PricedOn(c))
    requires forall d | d in checkouts :: Sum(orders', PricedOn(d)) == Sum(orders, PricedOn(d))
    ensures CheckoutsOk(checkouts[c := row], orders')
  {
    hide OrderFits, Added, PricedOn;
    AddedFits(checkouts, orders, orders', c, row, next, next');
  }

  lemma AddedKeepsOthers(checkouts: map<Id, Checkout>, orders: map<Id, Order>, orders': map<Id, Order>, c: Id,
                         row: Checkout, next: Id, next': Id, clusters: map<Id, Id>, payments: map<Id, Payment>)
    requires Added(orders, orders', c, next, next') && c !in checkouts && c >= next - 1
    requires row.status.AwaitingPayment?
    requires HandoversOk(orders, clusters) && PaymentsOk(checkouts, payments)
    ensures HandoversOk(orders', clusters) && PaymentsOk(checkouts[c := row], payments)
    ensures CheckoutsEvolve(checkouts, checkouts[c := row])
  {
  }

  lemma AddedLeavesRequest(r: Id, checkouts: map<Id, Checkout>, orders: map<Id, Order>, orders': map<Id, Order>, c: Id,
                           row: Checkout, next: Id, next': Id)
    requires Added(orders, orders', c, next, next') && c !in checkouts && row.request != Some(r)
    requires forall o | o in orders && orders[o].checkout.Some? :: orders[o].checkout.value in checkouts
    ensures Untouched(r, checkouts, orders, checkouts[c := row], orders')
  {
  }

  lemma AddedKeepsRefs(requests: map<Id, Request>, checkouts: map<Id, Checkout>, c: Id, row: Checkout)
    requires RequestRefs(requests, checkouts) && c !in checkouts
    requires row.request.Some? ==> row.request.value in requests && !HasLive(checkouts, row.request.value)
    ensures RequestRefs(requests, checkouts[c := row])
  {
  }

  lemma AddedKeepsRequests(requests: map<Id, Request>, checkouts: map<Id, Checkout>, orders: map<Id, Order>,
                           orders': map<Id, Order>, c: Id, row: Checkout, next: Id, next': Id)
    requires Added(orders, orders', c, next, next') && c !in checkouts
    requires forall o | o in orders && orders[o].checkout.Some? :: orders[o].checkout.value in checkouts
    requires RequestRefs(requests, checkouts) && SyncedBut(None, requests, checkouts, orders)
    requires row.request.Some? ==> row.request.value in requests && !HasLive(checkouts, row.request.value)
    ensures RequestRefs(requests, checkouts[c := row])
    ensures SyncedBut(row.request, requests, checkouts[c := row], orders')
  {
    hide Added, RequestRefs, SyncedBut, Untouched, HasLive;
    AddedKeepsRefs(requests, checkouts, c, row);
    forall r | r in requests && row.request != Some(r) {
      AddedLeavesRequest(r, checkouts, orders, orders', c, row, next, next');
    }
    OthersSynced(row.request, requests, checkouts, orders, checkouts[c := row], orders');
  }

  ghost predicate MayPlace(s: State, draft: Draft, lines: seq<Line>, request: Option<Id>) {
    && !HasKey(s.checkouts, draft.buyer, draft.key)
    && lines != [] && (forall i | 0 <= i < |lines| :: lines[i].quantity > 0)
    && (request.Some? ==> request.value in s.requests && !HasLive(s.checkouts, request.value))
  }

  // The checkout and the orders that reserved lines become.
  lemma CreatedTables(s: State, config: Config, draft: Draft, lines: seq<OrderLine>, request: Option<Id>, now: int)
    requires FreshOk(s) && CheckoutsOk(s.checkouts, s.orders) && !HasKey(s.checkouts, draft.buyer, draft.key)
    requires lines != [] && forall i | 0 <= i < |lines| :: lines[i].total > 0
    requires CreateCheckout(s, config, draft, lines, request, now).Ok?
    ensures var t := CreateCheckout(s, config, draft, lines, request, now).value;
            FreshOk(t) && CheckoutsOk(t.checkouts, t.orders) && Added(s.orders, t.orders, s.next, s.next + 1, t.next)
  {
    hide HasKey, CheckoutsOk, Added, PricedOn, FreshOk;
    var t := CreateCheckout(s, config, draft, lines, request, now).value;
    FreshFacts(s);
    AddOrdersAdds(s.orders, lines, s.next, draft.buyer, s.next + 1);
    SubtotalPositive(lines);
    PlacedFresh(s, t);
    AllPriced(s.orders, lines, s.next, draft.buyer, s.next + 1);
    NothingPriced(s.checkouts, s.orders, s.next);
    AddedKeepsCheckouts(s.checkouts, s.orders, t.orders, s.next, t.checkouts[s.next], s.next + 1, t.next);
  }

  lemma PlacedTables(s: State, config: Config, draft: Draft, lines: seq<Line>, request: Option<Id>, now: int, lost: Error)
    requires FreshOk(s) && StockOk(s.listings, s.orders) && CheckoutsOk(s.checkouts, s.orders)
    requires MayPlace(s, draft, lines, request) && Place(s, config, draft, lines, request, now, lost).Ok?
    ensures var t := Place(s, config, draft, lines, request, now, lost).value;
            && FreshOk(t) && StockOk(t.listings, t.orders) && CheckoutsOk(t.checkouts, t.orders)
            && Added(s.orders, t.orders, s.next, s.next + 1, t.next) && t.next > s.next
            && s.next in t.checkouts && t.checkouts == s.checkouts[s.next := t.checkouts[s.next]]
            && t.checkouts[s.next].status.AwaitingPayment? && t.checkouts[s.next].request == request
            && t == s.(listings := t.listings, checkouts := t.checkouts, orders := t.orders, next := t.next)
  {
    hide StockOk, HasKey, HasLive, CheckoutsOk, Added, GrandTotal, FreshOk, ReserveAll, AddOrders, Subtotal;
    PricesPositive(s.listings, s.orders);
    ReserveFacts(s.listings, s.verified, lines);
    var r := ReserveAll(s.listings, s.verified, lines).value;
    FreshFacts(s);
    PlaceKeepsStock(s.listings, s.verified, s.orders, lines, s.next, draft.buyer, s.next + 1);
    SameListings(s, r.listings);
    CreatedTables(s.(listings := r.listings), config, draft, r.lines, request, now);
  }

  lemma SameListings(s: State, listings: map<Id, Listing>)
    requires FreshOk(s) && listings.Keys == s.listings.Keys
    ensures FreshOk(s.(listings := listings))
  {
  }

  lemma FreshFacts(s: State)
    requires FreshOk(s)
    ensures forall o | o in s.orders :: o < s.next
    ensures s.next !in s.checkouts
  {
  }

  lemma PlacedFresh(s: State, t: State)
    requires FreshOk(s) && t.next > s.next && t.listings.Keys == s.listings.Keys
    requires Added(s.orders, t.orders, s.next, s.next + 1, t.next) && t.checkouts.Keys == s.checkouts.Keys + {s.next}
    requires t == s.(listings := t.listings, checkouts := t.checkouts, orders := t.orders, next := t.next)
    ensures FreshOk(t)
  {
  }

  lemma AllPriced(orders: map<Id, Order>, lines: seq<OrderLine>, c: Id, buyer: Id, first: Id)
    requires forall o | o in orders :: o < first
    ensures forall d :: Sum(AddOrders(orders, lines, c, buyer, first), PricedOn(d))
                        == Sum(orders, PricedOn(d)) + (if d == c then Subtotal(lines) else 0)
  {
    forall d {
      AddedPriced(orders, lines, c, buyer, first, d);
    }
  }

  lemma PricesPositive(listings: map<Id, Listing>, orders: map<Id, Order>)
    requires StockOk(listings, orders)
    ensures forall l | l in listings :: listings[l].price > 0
  {
  }

  lemma NothingPriced(checkouts: map<Id, Checkout>, orders: map<Id, Order>, c: Id)
    requires CheckoutsOk(checkouts, orders) && c !in checkouts
    ensures Sum(orders, PricedOn(c)) == 0
  {
    forall o | o in orders
      ensures PricedOn(c)(orders[o]) == 0
    {
      assert OrderFits(checkouts, orders[o]);
    }
    SumZero(orders, PricedOn(c));
  }

  lemma OrdersHaveCheckouts(checkouts: map<Id, Checkout>, orders: map<Id, Order>)
    requires CheckoutsOk(checkouts, orders)
    ensures forall o | o in orders && orders[o].checkout.Some? :: orders[o].checkout.value in checkouts
  {
    forall o | o in orders
      ensures OrderFits(checkouts, orders[o])
    {
    }
  }

  lemma AddedEvolves(orders: map<Id, Order>, orders': map<Id, Order>, c: Id, next: Id, next': Id)
    requires Added(orders, orders', c, next + 1, next') && c >= next
    ensures OrdersEvolve(orders, orders', next)
  {
  }

  /** Placing keeps everything but the stored status of the request it was placed for. */
  lemma PlaceKeeps(s: State, config: Config, draft: Draft, lines: seq<Line>, request: Option<Id>, now: int, lost: Error)
    requires Inv(s) && MayPlace(s, draft, lines, request) && Place(s, config, draft, lines, request, now, lost).Ok?
    ensures var t := Place(s, config, draft, lines, request, now, lost).value;
            InvBut(request, t) && RowsEvolve(s, t) && t.requests == s.requests && t.carts == s.carts
  {
    hide StockOk, CheckoutsOk, HandoversOk, ReadsOk, PaymentsOk, RefundsOk, PayoutsOk, Excluded, RequestRefs, SyncedBut;
    hide CartsOk, OrdersEvolve, CheckoutsEvolve, Place, Added, HasKey, HasLive;
    var t := Place(s, config, draft, lines, request, now, lost).value;
    PlacedTables(s, config, draft, lines, request, now, lost);
    AddedEvolves(s.orders, t.orders, s.next, s.next, t.next);
    OrdersHaveCheckouts(s.checkouts, s.orders);
    AddedKeepsOthers(s.checkouts, s.orders, t.orders, s.next, t.checkouts[s.next], s.next + 1, t.next, s.clusters,
                     s.payments);
    AddedKeepsRequests(s.requests, s.checkouts, s.orders, t.orders, s.next, t.checkouts[s.next], s.next + 1, t.next);
    ReadsKept(s.orderReads, s.orders, t.orders, s.next, t.next);
    MoneyKept(s, t);
  }

  lemma BuyNowKeeps(s: State, config: Config, draft: Draft, line: Line, now: int)
    requires Inv(s) && line.quantity > 0 && BuyNow(s, config, draft, line, now).Ok?
    ensures var t := BuyNow(s, config, draft, line, now).value; Inv(t) && Evolves(s, t)
  {
    hide InvBut, RowsEvolve, RequestsEvolve, Place, Sync;
    if HasKey(s.checkouts, draft.buyer, draft.key) {
      EvolvesReflexive(s);
    } else {
      var t := BuyNow(s, config, draft, line, now).value;
      PlaceKeeps(s, config, draft, [line], None, now, OrderRefusal(s.listings, s.verified, line.listing));
      Commits(s, t, None);
      SyncNone(t);
    }
  }

  lemma {:induction false} SortedLinesAre(cart: map<Id, nat>)
    ensures forall i | 0 <= i < |SortedLines(cart)| ::
              SortedLines(cart)[i].listing in cart && SortedLines(cart)[i].quantity == cart[SortedLines(cart)[i].listing]
    ensures forall i, j | 0 <= i < j < |SortedLines(cart)| ::
              SortedLines(cart)[i].listing < SortedLines(cart)[j].listing
    decreases cart.Keys
  {
    if cart != map[] {
      var m := Max(cart.Keys);
      assert (cart - {m}).Keys < cart.Keys;
      SortedLinesAre(cart - {m});
      var rest := SortedLines(cart - {m});
      forall i | 0 <= i < |rest|
        ensures rest[i].listing < m
      {
        assert rest[i].listing in cart - {m};
      }
    }
  }

  lemma CartPositive(s: State, buyer: Id)
    requires Inv(s)
    ensures forall l | l in CartOf(s, buyer) :: CartOf(s, buyer)[l] > 0
  {
    hide StockOk, CheckoutsOk, HandoversOk, ReadsOk, PaymentsOk, RefundsOk, PayoutsOk, Excluded, RequestRefs, SyncedBut;
  }

  lemma CartsKeep(s: State, carts: map<Id, map<Id, nat>>)
    requires Inv(s) && CartsOk(carts)
    ensures Inv(s.(carts := carts)) && Evolves(s, s.(carts := carts))
  {
    hide StockOk, CheckoutsOk, HandoversOk, ReadsOk, PaymentsOk, RefundsOk, PayoutsOk, Excluded, RequestRefs, SyncedBut;
    hide CartsOk, OrdersEvolve, CheckoutsEvolve, PaymentsEvolve, RefundsEvolve, PayoutsEvolve, ItemsEvolve, RequestsEvolve;
    EvolvesReflexive(s);
  }

  lemma DroppedCartOk(s: State, buyer: Id)
    requires Inv(s)
    ensures CartsOk(s.carts - {buyer})
  {
    hide StockOk, CheckoutsOk, HandoversOk, ReadsOk, PaymentsOk, RefundsOk, PayoutsOk, Excluded, RequestRefs, SyncedBut;
  }

  lemma PlaceOrdersKeeps(s: State, config: Config, draft: Draft, now: int)
    requires Inv(s) && PlaceOrders(s, config, draft, now).Ok?
    ensures var t := PlaceOrders(s, config, draft, now).value; Inv(t) && Evolves(s, t)
  {
    hide InvBut, RowsEvolve, RequestsEvolve, Place, Sync, CartsOk;
    if HasKey(s.checkouts, draft.buyer, draft.key) {
      EvolvesReflexive(s);
    } else {
      var cart := CartOf(s, draft.buyer);
      var placed := Place(s, config, draft, SortedLines(cart), None, now, CartNeedsAttention).value;
      SortedLinesAre(cart);
      CartPositive(s, draft.buyer);
      PlaceKeeps(s, config, draft, SortedLines(cart), None, now, CartNeedsAttention);
      Commits(s, placed, None);
      SyncNone(placed);
      DroppedCartOk(placed, draft.buyer);
      CartsKeep(placed, placed.carts - {draft.buyer});
      FreshOrders(s);
      EvolvesTransitive(s, placed, placed.(carts := placed.carts - {draft.buyer}));
    }
  }

  lemma FreshOrders(s: State)
    requires Inv(s)
    ensures forall o | o in s.orders :: o < s.next
    ensures forall c | c in s.checkouts :: c < s.next
  {
    hide StockOk, CheckoutsOk, HandoversOk, ReadsOk, PaymentsOk, RefundsOk, PayoutsOk, Excluded, RequestRefs, SyncedBut;
    hide CartsOk;
  }

  lemma AllocationsPositive(s: State, r: Id)
    requires Inv(s) && r in s.requests
    ensures forall l | l in s.requests[r].allocations :: s.requests[r].allocations[l] > 0
  {
    hide StockOk, CheckoutsOk, HandoversOk, ReadsOk, PaymentsOk, RefundsOk, PayoutsOk, Excluded, SyncedBut, CartsOk;
    hide OneLiveEach;
  }

  lemma ConfirmRequestKeeps(s: State, config: Config, r: Id, draft: Draft, matching: set<Id>, now: int)
    requires Inv(s) && ConfirmRequest(s, config, r, draft, matching, now).Ok?
    ensures var t := ConfirmRequest(s, config, r, draft, matching, now).value; Inv(t) && Evolves(s, t)
  {
    hide InvBut, RowsEvolve, RequestsEvolve, Place, Sync, ListingEligible, Selected;
    var row := s.requests[r];
    if HasKey(s.checkouts, row.buyer, draft.key) {
      EvolvesReflexive(s);
    } else {
      var lines := SortedLines(row.allocations);
      SortedLinesAre(row.allocations);
      AllocationsPositive(s, r);
      PlaceKeeps(s, config, draft.(buyer := row.buyer), lines, Some(r), now, ListingNotEligible);
      Commits(s, Place(s, config, draft.(buyer := row.buyer), lines, Some(r), now, ListingNotEligible).value, Some(r));
    }
  }

  // ----- Releasing -----

  // How an unpaid checkout ends, and what becomes of its orders.
  predicate Ends(status: CheckoutStatus, orders: OrderStatus) {
    if status.Paid? then orders.Pending? else (status.Expired? || status.Cancelled?) && orders.Cancelled?
  }

  lemma EndedFits(checkouts: map<Id, Checkout>, order: Order, c: Id, status: CheckoutStatus, end: OrderStatus)
    requires OrderFits(checkouts, order) && c in checkouts && checkouts[c].status.AwaitingPayment? && Ends(status, end)
    ensures OrderFits(checkouts[c := checkouts[c].(status := status)],
                      if Unpaid(order, c) then order.(status := end) else order)
  {
  }

  lemma EndedPrices(orders: map<Id, Order>, c: Id, end: OrderStatus, d: Id)
    ensures Sum(WithOrders(orders, c, end), PricedOn(d)) == Sum(orders, PricedOn(d))
  {
    SumSame(orders, PricedOn(d), WithOrders(orders, c, end), PricedOn(d));
  }

  lemma EndedCheckouts(checkouts: map<Id, Checkout>, orders: map<Id, Order>, c: Id, status: CheckoutStatus,
                       end: OrderStatus)
    requires CheckoutsOk(checkouts, orders) && c in checkouts && checkouts[c].status.AwaitingPayment?
    requires Ends(status, end)
    ensures CheckoutsOk(checkouts[c := checkouts[c].(status := status)], WithOrders(orders, c, end))
  {
    hide OrderFits, Unpaid, PricedOn, Ends;
    var orders' := WithOrders(orders, c, end);
    forall o | o in orders'
      ensures OrderFits(checkouts[c := checkouts[c].(status := status)], orders'[o])
    {
      EndedFits(checkouts, orders[o], c, status, end);
    }
    forall d | d in checkouts {
      EndedPrices(orders, c, end, d);
    }
  }

  lemma WithOrdersEvolves(orders: map<Id, Order>, clusters: map<Id, Id>, c: Id, status: OrderStatus, next: Id)
    requires HandoversOk(orders, clusters) && (status.Cancelled? || status.Pending?)
    ensures OrdersEvolve(orders, WithOrders(orders, c, status), next)
    ensures HandoversOk(WithOrders(orders, c, status), clusters)
  {
  }

  lemma AbandonedEvolve(payments: map<Id, Payment>, c: Id)
    ensures PaymentsEvolve(payments, WithoutPending(payments, c)) && NoNewOrphan(payments, WithoutPending(payments, c))
  {
  }

  lemma ReleasedPaymentFits(checkouts: map<Id, Checkout>, payments: map<Id, Payment>, c: Id, status: CheckoutStatus)
    requires PaymentsOk(checkouts, payments) && c in checkouts && checkouts[c].status.AwaitingPayment?
    requires status.Expired? || status.Cancelled?
    ensures forall p | p in payments ::
              PaymentFits(checkouts[c := checkouts[c].(status := status)], WithoutPending(payments, c)[p])
  {
    forall p | p in payments
      ensures PaymentFits(checkouts[c := checkouts[c].(status := status)], WithoutPending(payments, c)[p])
    {
      assert PaymentFits(checkouts, payments[p]);
    }
  }

  // A paid checkout stays paid for while its succeeded payment is left alone.
  lemma PaidForKept(payments: map<Id, Payment>, payments': map<Id, Payment>, d: Id)
    requires PaidFor(payments, d)
    requires forall q | q in payments && payments[q].status.Succeeded? :: q in payments' && payments'[q] == payments[q]
    ensures PaidFor(payments', d)
  {
    var q :| q in payments && payments[q].checkout == d && payments[q].status.Succeeded?;
    assert payments'[q] == payments[q];
  }

  lemma ReleasedPayments(checkouts: map<Id, Checkout>, payments: map<Id, Payment>, c: Id, status: CheckoutStatus)
    requires PaymentsOk(checkouts, payments) && c in checkouts && checkouts[c].status.AwaitingPayment?
    requires status.Expired? || status.Cancelled?
    ensures PaymentsOk(checkouts[c := checkouts[c].(status := status)], WithoutPending(payments, c))
  {
    hide PaymentFits, PaidFor;
    ReleasedPaymentFits(checkouts, payments, c, status);
    forall d | d in checkouts && checkouts[d].status.Paid? {
      PaidForKept(payments, WithoutPending(payments, c), d);
    }
  }

  lemma EndedRequests(requests: map<Id, Request>, checkouts: map<Id, Checkout>, orders: map<Id, Order>, c: Id,
                      status: CheckoutStatus, end: OrderStatus)
    requires RequestRefs(requests, checkouts) && SyncedBut(None, requests, checkouts, orders)
    requires c in checkouts && checkouts[c].status.AwaitingPayment? && Ends(status, end)
    ensures var checkouts' := checkouts[c := checkouts[c].(status := status)];
            RequestRefs(requests, checkouts') &&
            SyncedBut(checkouts[c].request, requests, checkouts', WithOrders(orders, c, end))
  {
    hide SyncedBut;
    var checkouts' := checkouts[c := checkouts[c].(status := status)];
    var orders' := WithOrders(orders, c, end);
    forall r | r in requests && checkouts[c].request != Some(r)
      ensures Untouched(r, checkouts, orders, checkouts', orders')
    {
    }
    OthersSynced(checkouts[c].request, requests, checkouts, orders, checkouts', orders');
  }

  /** Releasing a checkout keeps everything but its request's stored status. */
  lemma ReleaseKeeps(s: State, c: Id, status: CheckoutStatus)
    requires Inv(s) && c in s.checkouts && s.checkouts[c].status.AwaitingPayment?
    requires status.Expired? || status.Cancelled?
    ensures InvBut(s.checkouts[c].request, Release(s, c, status)) && RowsEvolve(s, Release(s, c, status))
  {
    hide StockOk, CheckoutsOk, HandoversOk, ReadsOk, PaymentsOk, RefundsOk, PayoutsOk, Excluded, RequestRefs, SyncedBut;
    hide CartsOk, OrdersEvolve, PaymentsEvolve, CheckoutsEvolve, Returned, WithOrders, WithoutPending, NoNewOrphan;
    var t := Release(s, c, status);
    ReturnedKeys(s, c);
    ReleaseKeepsStock(s.listings, s.orders, c);
    EndedCheckouts(s.checkouts, s.orders, c, status, OrderStatus.Cancelled);
    WithOrdersEvolves(s.orders, s.clusters, c, OrderStatus.Cancelled, s.next);
    StatusEvolves(s.checkouts, c, status);
    AbandonedEvolve(s.payments, c);
    ReleasedPayments(s.checkouts, s.payments, c, status);
    EndedRequests(s.requests, s.checkouts, s.orders, c, status, OrderStatus.Cancelled);
    ReadsKept(s.orderReads, s.orders, t.orders, s.next, s.next);
    MoneyKept(s, t);
  }

  lemma ReturnedKeys(s: State, c: Id)
    ensures Returned(s.listings, s.orders, c).Keys == s.listings.Keys
    ensures WithOrders(s.orders, c, OrderStatus.Cancelled).Keys == s.orders.Keys
    ensures WithoutPending(s.payments, c).Keys == s.payments.Keys
  {
  }

  lemma StatusEvolves(checkouts: map<Id, Checkout>, c: Id, status: CheckoutStatus)
    requires c in checkouts && checkouts[c].status.AwaitingPayment?
    ensures CheckoutsEvolve(checkouts, checkouts[c := checkouts[c].(status := status)])
  {
  }

  lemma CancelCheckoutKeeps(s: State, c: Id, buyer: Id)
    requires Inv(s) && CancelCheckout(s, c, buyer).Ok?
    ensures Inv(CancelCheckout(s, c, buyer).value) && Evolves(s, CancelCheckout(s, c, buyer).value)
  {
    hide InvBut, RowsEvolve, RequestsEvolve, Sync, Returned;
    ReleaseKeeps(s, c, CheckoutStatus.Cancelled);
    Commits(s, Release(s, c, CheckoutStatus.Cancelled), s.checkouts[c].request);
  }

  lemma ExpireKeeps(s: State, c: Id, now: int)
    requires Inv(s) && Expire(s, c, now).Ok?
    ensures Inv(Expire(s, c, now).value) && Evolves(s, Expire(s, c, now).value)
  {
    hide InvBut, RowsEvolve, RequestsEvolve, Sync, Returned;
    ReleaseKeeps(s, c, Expired);
    Commits(s, Release(s, c, Expired), s.checkouts[c].request);
  }
}
