/**
 * The services as they run: each method is one transaction that reads rows, refuses early, and then
 * updates tables in place. Every one is proved to leave the database exactly as its step says and
 * valid, so all that is proved of runs of steps holds of runs of calls.
 */
module Services {
  import opened Rows
  import opened Sums
  import opened Money
  import opened Stock
  import opened Sourcing
  import Orders
  import Checkouts
  import Payments
  import Refunds
  import Payouts
  import opened Invariants
  import opened Evolution
  import OrderProofs
  import CheckoutProofs
  import RequestProofs
  import PaymentProofs
  import PaymentSafety
  import RefundProofs
  import PayoutProofs
  import ListingProofs
  import opened Loops

  // The call commits what its step commits, or is refused for the same reason and changes nothing.
  predicate Follows(before: State, after: State, refusal: Option<Error>, step: Result<State>) {
    match step
    case Ok(t) => refusal.None? && after == t
    case Refused(error) => refusal == Some(error) && after == before
  }

  class Database {
    var listings: map<Id, Listing>
    var verified: set<Id>
    var clusters: map<Id, Id>
    var carts: map<Id, map<Id, nat>>
    var orders: map<Id, Order>
    var checkouts: map<Id, Checkout>
    var payments: map<Id, Payment>
    var refunds: map<Id, Refund>
    var payouts: map<Id, Payout>
    var items: map<(Id, Id), Item>
    var accounts: map<Id, int>
    var requests: map<Id, Request>
    var orderReads: map<Id, Read<Order>>
    var listingReads: map<Id, Read<Listing>>
    var next: Id
    const config: Config

    constructor (s: State, settings: Config)
      requires Inv(s)
      ensures Valid() && Rows() == s && config == settings
    {
      listings, verified, clusters, carts := s.listings, s.verified, s.clusters, s.carts;
      orders, checkouts, payments, refunds := s.orders, s.checkouts, s.payments, s.refunds;
      payouts, items, accounts, requests := s.payouts, s.items, s.accounts, s.requests;
      orderReads, listingReads, next := s.orderReads, s.listingReads, s.next;
      config := settings;
    }

    function Rows(): State
      reads this
    {
      State(listings, verified, clusters, carts, orders, checkouts, payments, refunds, payouts, items, accounts,
            requests, orderReads, listingReads, next)
    }

    ghost predicate Valid()
      reads this
    {
      Inv(Rows())
    }

    // ----- Stock -----

    // Writes only when the derived status differs, and is right either way.
    method SyncProduceStatus(l: Id)
      requires l in listings
      modifies this`listings
      ensures listings == old(listings)[l := Restatused(old(listings)[l])]
    {
      var row := listings[l];
      var status := DeriveStatus(row.status, row.actual, row.floating);
      if status != row.status {
        listings := listings[l := row.(status := status)];
      } else {
        assert Restatused(row) == row && listings[l := row] == listings;
      }
    }

    // The answer tells whether the listing could be ordered from; only then have its counters moved.
    method TryReserveProduce(l: Id, quantity: nat) returns (reserved: bool)
      modifies this`listings
      ensures reserved <==> TryReserve(old(listings), verified, l, quantity).Some?
      ensures listings == if reserved then TryReserve(old(listings), verified, l, quantity).value else old(listings)
    {
      reserved := l in listings && listings[l].status.Published? && listings[l].floating >= quantity
                  && listings[l].farm in verified;
      if reserved {
        var row := listings[l];
        listings := listings[l := row.(floating := row.floating - quantity)];
        SyncProduceStatus(l);
      }
    }

    method ReleaseProduce(order: Order)
      modifies this`listings
      ensures listings == ReleaseStock(old(listings), order)
    {
      if order.listing in listings {
        var row := listings[order.listing];
        row := row.(floating := row.floating + order.quantity);
        if !Uncommitted(order.status) {
          row := row.(actual := row.actual + order.quantity);
        }
        listings := listings[order.listing := row];
        SyncProduceStatus(order.listing);
      }
    }

    // ----- Listings -----

    method CreateListing(farm: Id, farmer: Id, price: nat, quantity: nat, status: ProduceStatus)
      requires Valid() && price > 0
      modifies this`listings, this`next
      ensures Valid() && Rows() == Stock.CreateListing(old(Rows()), farm, farmer, price, quantity, status)
    {
      hide Inv, Evolves;
      ListingProofs.CreateListingKeeps(Rows(), farm, farmer, price, quantity, status);
      listings := listings[next := Listing(farm, farmer, price, quantity, quantity,
                                           DeriveStatus(status, quantity, quantity), quantity)];
      next := next + 1;
    }

    method ReadListing(session: Id, l: Id) returns (refusal: Option<Error>)
      requires Valid()
      modifies this`listingReads
      ensures Valid() && Follows(old(Rows()), Rows(), refusal, Stock.ReadListing(old(Rows()), session, l))
    {
      hide Inv, Evolves;
      if l !in listings {
        return Some(NotFound);
      }
      ListingProofs.ReadListingKeeps(Rows(), session, l);
      listingReads := listingReads[session := Read(l, listings[l])];
      return None;
    }

    // Every figure comes from the row read earlier, and the write goes through only if both of that row's
    // counters are still current.
    method UpdateListing(session: Id, actual: Option<nat>, status: Option<ProduceStatus>, price: Option<nat>)
      returns (refusal: Option<Error>)
      requires Valid() && (price.Some? ==> price.value > 0)
      modifies this`listings
      ensures Valid() && Follows(old(Rows()), Rows(), refusal,
                                 Stock.UpdateListing(old(Rows()), session, actual, status, price))
    {
      hide Inv, Evolves;
      if session !in listingReads {
        return Some(NotFound);
      }
      var Read(l, seen) := listingReads[session];
      var quantity := if actual.Some? then actual.value else seen.actual;
      var delta := quantity - seen.actual;
      var floating := seen.floating + delta;
      if floating < 0 {
        return Some(StockReserved);
      }
      var requested := if seen.status.Disabled? then ProduceStatus.Disabled
                       else if status.Some? then status.value else seen.status;
      var derived := DeriveStatus(requested, quantity, floating);
      if l !in listings || listings[l].actual != seen.actual || listings[l].floating != seen.floating {
        return Some(StockChanged);
      }
      ListingProofs.UpdateListingKeeps(Rows(), session, actual, status, price);
      var row := listings[l];
      if price.Some? {
        row := row.(price := price.value);
      }
      listings := listings[l := row.(actual := quantity, floating := floating, status := derived,
                                     supplied := row.supplied + delta)];
      return None;
    }

    method DisableListing(l: Id) returns (refusal: Option<Error>)
      requires Valid()
      modifies this`listings
      ensures Valid() && Follows(old(Rows()), Rows(), refusal, Stock.DisableListing(old(Rows()), l))
    {
      hide Inv, Evolves;
      if l !in listings {
        return Some(ProduceNotFound);
      }
      if exists o | o in orders :: orders[o].listing == l && OpenPaid(orders[o].status) {
        return Some(ProduceHasOpenOrders);
      }
      ListingProofs.DisableListingKeeps(Rows(), l);
      listings := listings[l := listings[l].(status := ProduceStatus.Disabled)];
      return None;
    }

    // ----- Sourcing status -----

    // Called last in a transaction, it leaves no request with an outdated status.
    method SyncSourcingRequest(request: Option<Id>)
      modifies this`requests
      ensures Rows() == Sync(old(Rows()), request)
    {
      if request.Some? && request.value in requests {
        var r := request.value;
        var row := requests[r];
        var view := ViewOf(row, r, checkouts, orders);
        if AllCancelled(view.paid) {
          row := row.(closed := true);
        }
        requests := requests[r := row.(status := DeriveRequestStatus(view))];
      }
    }

    // ----- Orders -----

    method ReadOrder(session: Id, o: Id) returns (refusal: Option<Error>)
      requires Valid()
      modifies this`orderReads
      ensures Valid() && Follows(old(Rows()), Rows(), refusal, Orders.ReadOrder(old(Rows()), session, o))
    {
      hide Inv, Evolves;
      if o !in orders {
        return Some(OrderNotFound);
      }
      OrderProofs.ReadOrderKeeps(Rows(), session, o);
      orderReads := orderReads[session := Read(o, orders[o])];
      return None;
    }

    method Confirm(session: Id) returns (refusal: Option<Error>)
      requires Valid()
      modifies this`orders, this`listings, this`requests
      ensures Valid() && Follows(old(Rows()), Rows(), refusal, Orders.Confirm(old(Rows()), session))
    {
      hide Inv, Evolves, Sync, DeriveStatus;
      if session !in orderReads {
        return Some(OrderNotFound);
      }
      var Read(o, order) := orderReads[session];
      if !order.status.Pending? {
        return Some(OrderNotPending);
      }
      if o !in orders || !orders[o].status.Pending? || order.listing !in listings {
        return Some(OrderChanged);
      }
      OrderProofs.ConfirmKeeps(Rows(), session);
      var row := listings[order.listing];
      var left := row.actual - order.quantity;
      var taken := row.(actual := left, status := DeriveStatus(row.status, left, row.floating));
      assert taken == Restatused(row.(actual := left));
      orders := orders[o := orders[o].(status := OrderStatus.Confirmed)];
      listings := listings[order.listing := taken];
      SyncSourcingRequest(RequestOf(Rows(), orders[o]));
      return None;
    }

    method Prepare(session: Id) returns (refusal: Option<Error>)
      requires Valid()
      modifies this`orders, this`requests
      ensures Valid() && Follows(old(Rows()), Rows(), refusal, Orders.Prepare(old(Rows()), session))
    {
      hide Inv, Evolves, Sync;
      if session !in orderReads {
        return Some(OrderNotFound);
      }
      var Read(o, order) := orderReads[session];
      if !order.status.Confirmed? {
        return Some(OrderNotConfirmed);
      }
      if o !in orders || !orders[o].status.Confirmed? {
        return Some(OrderChanged);
      }
      OrderProofs.PrepareKeeps(Rows(), session);
      orders := orders[o := orders[o].(status := Preparing, checklist := Some(Checklist(false, false, false, false)))];
      SyncSourcingRequest(RequestOf(Rows(), orders[o]));
      return None;
    }

    method UpdateChecklist(session: Id, ticks: Orders.Ticks) returns (refusal: Option<Error>)
      requires Valid()
      modifies this`orders
      ensures Valid() && Follows(old(Rows()), Rows(), refusal, Orders.Tick(old(Rows()), session, ticks))
    {
      hide Inv, Evolves;
      if session !in orderReads {
        return Some(OrderNotFound);
      }
      var Read(o, order) := orderReads[session];
      if !order.status.Preparing? {
        return Some(OrderNotPreparing);
      }
      if o !in orders || !orders[o].status.Preparing? || orders[o].checklist.None? {
        return Some(OrderChanged);
      }
      OrderProofs.TickKeeps(Rows(), session, ticks);
      orders := orders[o := orders[o].(checklist := Some(Orders.Ticked(orders[o].checklist.value, ticks)))];
      return None;
    }

    method MarkReady(session: Id, list: Id) returns (refusal: Option<Error>)
      requires Valid()
      modifies this`orders, this`requests
      ensures Valid() && Follows(old(Rows()), Rows(), refusal, Orders.MarkReady(old(Rows()), session, list))
    {
      hide Inv, Evolves, Sync;
      if session !in orderReads {
        return Some(OrderNotFound);
      }
      var Read(o, order) := orderReads[session];
      if !order.status.Preparing? {
        return Some(OrderNotPreparing);
      }
      if list !in orderReads || orderReads[list].id != o || orderReads[list].row.checklist.None? {
        return Some(NotFound);
      }
      if !orderReads[list].row.checklist.value.Complete() {
        return Some(ChecklistIncomplete);
      }
      if o !in orders || !orders[o].status.Preparing? || orders[o].checklist.None?
         || !orders[o].checklist.value.Complete() {
        return Some(OrderChanged);
      }
      OrderProofs.MarkReadyKeeps(Rows(), session, list);
      var handover := Handover(HandoverStatus.Pending, Orders.AgentOf(clusters, order.farm));
      orders := orders[o := orders[o].(status := Ready, handover := Some(handover))];
      SyncSourcingRequest(RequestOf(Rows(), orders[o]));
      return None;
    }

    method Cancel(session: Id, seller: bool) returns (refusal: Option<Error>)
      requires Valid()
      modifies this`orders, this`listings, this`requests
      ensures Valid() && Follows(old(Rows()), Rows(), refusal, Orders.Cancel(old(Rows()), session, seller))
    {
      hide Inv, Evolves, Sync, ReleaseStock;
      if session !in orderReads {
        return Some(OrderNotFound);
      }
      var Read(o, order) := orderReads[session];
      if order.status.AwaitingPayment? {
        return Some(OrderInCheckout);
      }
      if !Orders.MayCancel(order.status, seller) {
        return Some(OrderNotCancellable);
      }
      if o !in orders || orders[o].status != order.status {
        return Some(OrderChanged);
      }
      OrderProofs.CancelKeeps(Rows(), session, seller);
      orders := orders[o := orders[o].(status := OrderStatus.Cancelled)];
      ReleaseProduce(order);
      SyncSourcingRequest(RequestOf(Rows(), orders[o]));
      return None;
    }

    method Remove(session: Id, buyer: Id) returns (refusal: Option<Error>)
      requires Valid()
      modifies this`orders, this`listings
      ensures Valid() && Follows(old(Rows()), Rows(), refusal, Orders.Remove(old(Rows()), session, buyer))
    {
      hide Inv, Evolves, ReleaseStock;
      if session !in orderReads {
        return Some(OrderNotFound);
      }
      var Read(o, order) := orderReads[session];
      if order.status.AwaitingPayment? {
        return Some(OrderInCheckout);
      }
      if order.checkout.Some? {
        return Some(OrderPaid);
      }
      if order.buyer != buyer || !order.status.Pending? {
        return Some(OrderNotPending);
      }
      if o !in orders || !orders[o].status.Pending? {
        return Some(OrderChanged);
      }
      OrderProofs.RemoveKeeps(Rows(), session, buyer);
      orders := orders - {o};
      ReleaseProduce(order);
      return None;
    }

    // ----- Handovers -----

    method VerifyHandover(o: Id, agent: Id) returns (refusal: Option<Error>)
      requires Valid()
      modifies this`orders, this`requests
      ensures Valid() && Follows(old(Rows()), Rows(), refusal, Orders.VerifyHandover(old(Rows()), o, agent))
    {
      hide Inv, Evolves, Sync;
      if o !in orders || orders[o].handover.None? || orders[o].handover.value.agent != Some(agent) {
        return Some(HandoverNotFound);
      }
      if !orders[o].handover.value.status.Pending? {
        return Some(HandoverNotPending);
      }
      OrderProofs.VerifyHandoverKeeps(Rows(), o, agent);
      orders := orders[o := orders[o].(handover := Some(Handover(Verified, Some(agent))))];
      SyncSourcingRequest(RequestOf(Rows(), orders[o]));
      return None;
    }

    method CompleteHandover(o: Id, agent: Id) returns (refusal: Option<Error>)
      requires Valid()
      modifies this`orders, this`requests
      ensures Valid() && Follows(old(Rows()), Rows(), refusal, Orders.CompleteHandover(old(Rows()), o, agent))
    {
      hide Inv, Evolves, Sync;
      if o !in orders || orders[o].handover.None? || orders[o].handover.value.agent != Some(agent) {
        return Some(HandoverNotFound);
      }
      if !orders[o].handover.value.status.Verified? {
        return Some(HandoverNotVerified);
      }
      var was := orders;
      orders := orders[o := orders[o].(handover := Some(Handover(HandedOver, Some(agent))))];
      if !orders[o].status.Ready? {
        orders := was;
        return Some(OrderNotReady);
      }
      OrderProofs.CompleteHandoverKeeps(old(Rows()), o, agent);
      orders := orders[o := orders[o].(status := Shipped)];
      assert orders == was[o := was[o].(status := Shipped, handover := Some(Handover(HandedOver, Some(agent))))];
      SyncSourcingRequest(RequestOf(Rows(), orders[o]));
      return None;
    }

    // ----- Placing orders -----

    // On None some lines may have been reserved; the caller rolls those back.
    method ReserveLines(lines: seq<Checkouts.Line>) returns (taken: Option<seq<Checkouts.OrderLine>>)
      modifies this`listings
      ensures var r := Checkouts.ReserveAll(old(listings), verified, lines);
              (taken.None? <==> r.None?) && (r.Some? ==> Checkouts.Reserved(listings, taken.value) == r.value)
    {
      hide IsOrderable;
      var orderLines: seq<Checkouts.OrderLine> := [];
      var i := 0;
      while i < |lines|
        invariant 0 <= i <= |lines|
        invariant Checkouts.ReserveAll(old(listings), verified, lines[..i]) == Some(Checkouts.Reserved(listings, orderLines))
      {
        assert lines[..i + 1][..i] == lines[..i];
        var reserved := TryReserveProduce(lines[i].listing, lines[i].quantity);
        if !reserved {
          NoneStays(old(listings), verified, lines, i + 1);
          return None;
        }
        orderLines := orderLines + [Checkouts.LineOf(listings, lines[i])];
        i := i + 1;
      }
      assert lines[..i] == lines;
      return Some(orderLines);
    }

    // Refuses, having changed nothing, unless the lines come to what the buyer expected to pay.
    method CreateCheckout(draft: Checkouts.Draft, lines: seq<Checkouts.OrderLine>, request: Option<Id>, now: int)
      returns (refusal: Option<Error>)
      modifies this`checkouts, this`orders, this`next
      ensures Follows(old(Rows()), Rows(), refusal,
                      Checkouts.CreateCheckout(old(Rows()), config, draft, lines, request, now))
    {
      var subtotal := Checkouts.Subtotal(lines);
      var serviceFee := PercentOf(subtotal, config.serviceFeeBps);
      var total := subtotal + config.deliveryFee + serviceFee;
      if total != draft.expectedTotal {
        return Some(CartPriceChanged);
      }
      checkouts := checkouts[next := Checkout(draft.buyer, draft.key, CheckoutStatus.AwaitingPayment, subtotal,
                                              config.deliveryFee, serviceFee, total, now + config.holdMs, request)];
      orders := Checkouts.AddOrders(orders, lines, next, draft.buyer, next + 1);
      next := next + 1 + |lines|;
      return None;
    }

    // A refusal at any point restores the listings as they were on entry.
    method Place(draft: Checkouts.Draft, lines: seq<Checkouts.Line>, request: Option<Id>, now: int, lost: Error)
      returns (refusal: Option<Error>)
      modifies this`listings, this`checkouts, this`orders, this`next
      ensures Follows(old(Rows()), Rows(), refusal,
                      Checkouts.Place(old(Rows()), config, draft, lines, request, now, lost))
    {
      hide Checkouts.ReserveAll, Checkouts.CreateCheckout;
      var was := listings;
      var taken := ReserveLines(lines);
      if taken.None? {
        listings := was;
        return Some(lost);
      }
      refusal := CreateCheckout(draft, taken.value, request, now);
      if refusal.Some? {
        listings := was;
      }
    }

    method BuyNow(draft: Checkouts.Draft, line: Checkouts.Line, now: int) returns (refusal: Option<Error>)
      requires Valid() && line.quantity > 0
      modifies this`listings, this`checkouts, this`orders, this`next
      ensures Valid() && Follows(old(Rows()), Rows(), refusal, Checkouts.BuyNow(old(Rows()), config, draft, line, now))
    {
      hide Inv, Evolves, Checkouts.Place, Checkouts.HasKey;
      if Checkouts.HasKey(checkouts, draft.buyer, draft.key) {
        return None;
      }
      if !draft.deliverable {
        return Some(InvalidDelivery);
      }
      refusal := Place(draft, [line], None, now, OrderRefusal(listings, verified, line.listing));
      if refusal.None? {
        CheckoutProofs.BuyNowKeeps(old(Rows()), config, draft, line, now);
      }
    }

    method PlaceOrders(draft: Checkouts.Draft, now: int) returns (refusal: Option<Error>)
      requires Valid()
      modifies this`listings, this`checkouts, this`orders, this`next, this`carts
      ensures Valid() && Follows(old(Rows()), Rows(), refusal, Checkouts.PlaceOrders(old(Rows()), config, draft, now))
    {
      hide Inv, Evolves, Checkouts.Place, Checkouts.HasKey, Checkouts.SortedLines, IsOrderable;
      if Checkouts.HasKey(checkouts, draft.buyer, draft.key) {
        return None;
      }
      var cart := Checkouts.CartOf(Rows(), draft.buyer);
      if cart == map[] {
        return Some(CartEmpty);
      }
      if exists l | l in cart :: !IsOrderable(listings, verified, l, cart[l]) {
        return Some(CartNeedsAttention);
      }
      if !draft.deliverable {
        return Some(InvalidDelivery);
      }
      refusal := Place(draft, Checkouts.SortedLines(cart), None, now, CartNeedsAttention);
      if refusal.None? {
        carts := carts - {draft.buyer};
        CheckoutProofs.PlaceOrdersKeeps(old(Rows()), config, draft, now);
      }
    }

    // ----- Ending an unpaid checkout -----

    // Takes the least listing left each time, so it locks rows in the order placements do.
    method ReleaseOrders(c: Id)
      modifies this`listings
      ensures listings == Checkouts.Returned(old(listings), orders, c)
    {
      hide Checkouts.Returned, ReleaseStock, Checkouts.Unpaid;
      var todo := UnpaidOf(orders, c);
      ghost var done: set<Id> := {};
      ReturnedNothing(listings, orders, c);
      while todo != {}
        invariant done + todo == UnpaidOf(orders, c) && done !! todo
        invariant listings == Checkouts.Returned(old(listings), Part(orders, done), c)
        decreases todo
      {
        HasLeast(orders, todo);
        var o :| o in todo && forall p | p in todo :: orders[o].listing <= orders[p].listing;
        ReturnedOneMore(old(listings), orders, done, o, c);
        ReleaseProduce(orders[o]);
        todo := todo - {o};
        done := done + {o};
      }
      assert done == UnpaidOf(orders, c);
      ReturnedAll(old(listings), orders, c);
    }

    // The four tables an unpaid checkout touches are all brought to its end.
    method ReleaseCheckout(c: Id, status: CheckoutStatus)
      requires c in checkouts
      modifies this`listings, this`orders, this`payments, this`checkouts
      ensures Rows() == Checkouts.Release(old(Rows()), c, status)
    {
      hide Checkouts.Returned, Checkouts.WithOrders, Checkouts.WithoutPending;
      ReleaseOrders(c);
      orders := Checkouts.WithOrders(orders, c, OrderStatus.Cancelled);
      payments := Checkouts.WithoutPending(payments, c);
      checkouts := checkouts[c := checkouts[c].(status := status)];
    }

    method CancelCheckout(c: Id, buyer: Id) returns (refusal: Option<Error>)
      requires Valid()
      modifies this`listings, this`orders, this`payments, this`checkouts, this`requests
      ensures Valid() && Follows(old(Rows()), Rows(), refusal, Checkouts.CancelCheckout(old(Rows()), c, buyer))
    {
      hide Inv, Evolves, Sync, Checkouts.Release;
      if c !in checkouts || checkouts[c].buyer != buyer {
        return Some(CheckoutNotFound);
      }
      if !checkouts[c].status.AwaitingPayment? {
        return Some(CheckoutNotCancellable);
      }
      CheckoutProofs.CancelCheckoutKeeps(Rows(), c, buyer);
      var request := checkouts[c].request;
      ReleaseCheckout(c, CheckoutStatus.Cancelled);
      SyncSourcingRequest(request);
      return None;
    }

    // Decides on the row as it is now, not as a scan saw it.
    method Expire(c: Id, now: int) returns (refusal: Option<Error>)
      requires Valid()
      modifies this`listings, this`orders, this`payments, this`checkouts, this`requests
      ensures Valid() && Follows(old(Rows()), Rows(), refusal, Checkouts.Expire(old(Rows()), c, now))
    {
      hide Inv, Evolves, Sync, Checkouts.Release;
      if c !in checkouts || !checkouts[c].status.AwaitingPayment? || checkouts[c].expiresAt >= now {
        return Some(NotDue);
      }
      CheckoutProofs.ExpireKeeps(Rows(), c, now);
      var request := checkouts[c].request;
      ReleaseCheckout(c, Expired);
      SyncSourcingRequest(request);
      return None;
    }

    /**
     * Releases the overdue checkouts a scan found, counting those that were still overdue when their
     * turn came; one that was not is skipped.
     */
    method ExpireOverdue(overdue: seq<Id>, now: int) returns (expired: nat)
      requires Valid()
      modifies this`listings, this`orders, this`payments, this`checkouts, this`requests
      ensures Valid() && Rows() == Swept(old(Rows()), overdue, now)
      ensures expired == StillDue(old(Rows()), overdue, now)
    {
      hide Inv, Evolves, Checkouts.Expire;
      expired := 0;
      var i := 0;
      while i < |overdue|
        invariant 0 <= i <= |overdue|
        invariant Valid() && Rows() == Swept(old(Rows()), overdue[..i], now)
        invariant expired == StillDue(old(Rows()), overdue[..i], now)
      {
        assert overdue[..i + 1][..i] == overdue[..i];
        var refusal := Expire(overdue[i], now);
        if refusal.None? {
          expired := expired + 1;
        }
        i := i + 1;
      }
      assert overdue[..i] == overdue;
    }

    // ----- Payments -----

    method Initiate(c: Id, buyer: Id, key: Id, currency: Currency, rate: Option<nat>, now: int)
      returns (refusal: Option<Error>)
      requires Valid()
      modifies this`payments, this`next
      ensures Valid() && Follows(old(Rows()), Rows(), refusal,
                                 Payments.Initiate(old(Rows()), c, buyer, key, currency, rate, now))
    {
      hide Inv, Evolves, Checkouts.WithoutPending, Payments.HasAttempt, NgnToUsd;
      if c !in checkouts || checkouts[c].buyer != buyer {
        return Some(CheckoutNotFound);
      }
      if Payments.HasAttempt(payments, c, key) {
        return None;
      }
      if !checkouts[c].status.AwaitingPayment? || checkouts[c].expiresAt <= now {
        return Some(CheckoutNotPayable);
      }
      var charged := checkouts[c].total;
      if currency.Usd? {
        if rate.None? || rate.value == 0 {
          return Some(FxRateStale);
        }
        charged := NgnToUsd(checkouts[c].total, rate.value);
      }
      PaymentProofs.InitiateKeeps(Rows(), c, buyer, key, currency, rate, now);
      payments := Checkouts.WithoutPending(payments, c);
      payments := payments[next := Payment(c, key, checkouts[c].total, currency, charged, PaymentStatus.Pending)];
      next := next + 1;
      return None;
    }

    // Fails a pending attempt; one that has been abandoned or settled in the meantime is kept.
    method OpenCheckoutFailed(p: Id) returns (refusal: Option<Error>)
      requires Valid()
      modifies this`payments
      ensures Valid() && Follows(old(Rows()), Rows(), refusal, Payments.OpenFailed(old(Rows()), p))
    {
      hide Inv, Evolves;
      if p !in payments {
        return Some(PaymentNotFound);
      }
      PaymentProofs.OpenFailedKeeps(Rows(), p);
      if payments[p].status.Pending? {
        payments := payments[p := payments[p].(status := PaymentStatus.Failed)];
      }
      return None;
    }

    // The payment can pay for nothing any more, and one automatic refund owes the buyer all of it.
    method OrphanPayment(p: Id)
      requires Valid() && p in payments && Payments.Applicable(payments[p].status)
      modifies this`payments, this`refunds, this`next
      ensures Valid() && Rows() == Payments.SendBack(old(Rows()), p)
      ensures p in payments && payments[p].status.Orphaned?
      ensures PaymentSafety.ReturnedOnce(refunds, p, payments[p].charged)
      ensures Refunds.Remaining(payments, refunds, p) == 0
      ensures forall q | q in old(payments) && q != p ::
                q in payments && payments[q] == old(payments)[q] &&
                Refunds.Remaining(payments, refunds, q) == Refunds.Remaining(old(payments), old(refunds), q)
    {
      hide Inv, Evolves, PaymentSafety.ReturnedOnce, Refunds.Remaining;
      PaymentSafety.PaymentHasCheckout(Rows(), p);
      PaymentProofs.OrphanKeeps(Rows(), p);
      PaymentProofs.OrphanBalance(Rows(), p);
      PaymentSafety.OrphansReturned(Payments.SendBack(Rows(), p), p);
      payments := payments[p := payments[p].(status := Orphaned)];
      refunds := refunds[next := Refund(p, None, payments[p].charged, RefundStatus.Pending, true)];
      next := next + 1;
    }

    method SettlePayment(p: Id)
      requires p in payments && payments[p].checkout in checkouts
      modifies this`payments, this`checkouts, this`orders, this`requests
      ensures Rows() == Sync(Payments.Settle(old(Rows()), p), old(checkouts)[old(payments)[p].checkout].request)
    {
      hide Sync, Checkouts.WithOrders;
      var c := payments[p].checkout;
      payments := payments[p := payments[p].(status := PaymentStatus.Succeeded)];
      checkouts := checkouts[c := checkouts[c].(status := CheckoutStatus.Paid)];
      orders := Checkouts.WithOrders(orders, c, OrderStatus.Pending);
      SyncSourcingRequest(checkouts[c].request);
    }

    // Every branch a reported charge can take, for any charge, known payment or not.
    method ApplyVerifiedCharge(charge: Payments.Charge) returns (refusal: Option<Error>)
      requires Valid()
      modifies this`payments, this`refunds, this`checkouts, this`orders, this`requests, this`next
      ensures Valid() && Follows(old(Rows()), Rows(), refusal, Payments.ApplyCharge(old(Rows()), charge))
    {
      hide Inv, Evolves, Sync, Payments.Settle, Payments.SendBack;
      var p := charge.payment;
      if p !in payments || payments[p].checkout !in checkouts {
        return Some(PaymentNotFound);
      }
      PaymentProofs.ApplyChargeKeeps(Rows(), charge);
      var payment := payments[p];
      if !Payments.Applicable(payment.status) {
        return None;
      }
      if !charge.outcome.Success? {
        if charge.outcome.Failure? && payment.status.Pending? {
          payments := payments[p := payment.(status := PaymentStatus.Failed)];
        }
        return None;
      }
      if charge.currency != Some(payment.currency) || charge.amount != payment.charged
         || !checkouts[payment.checkout].status.AwaitingPayment? {
        OrphanPayment(p);
      } else {
        SettlePayment(p);
      }
      return None;
    }

    // ----- Refunds -----

    // Charge minus live refunds, by a loop over the refunds.
    method RemainingOf(p: Id) returns (remaining: int)
      requires p in payments
      ensures remaining == Refunds.Remaining(payments, refunds, p)
    {
      remaining := payments[p].charged;
      var todo := refunds.Keys;
      ghost var done: set<Id> := {};
      SumOfNone(refunds, Refunds.LiveOn(p));
      while todo != {}
        invariant done + todo == refunds.Keys && done !! todo
        invariant remaining == payments[p].charged - Sum(Part(refunds, done), Refunds.LiveOn(p))
        decreases todo
      {
        var r :| r in todo;
        SumPartGrows(refunds, Refunds.LiveOn(p), done, r);
        if refunds[r].payment == p && refunds[r].Live() {
          remaining := remaining - refunds[r].amount;
        }
        todo := todo - {r};
        done := done + {r};
      }
      assert Part(refunds, done) == refunds;
    }

    method RefundPayment(p: Id, order: Option<Id>) returns (refusal: Option<Error>)
      requires Valid()
      modifies this`refunds, this`next
      ensures Valid() && Follows(old(Rows()), Rows(), refusal, Refunds.RefundStep(old(Rows()), p, order))
    {
      hide Inv, Evolves, Refunds.LiveItemOn, Refunds.OrderAmount, Refunds.Remaining;
      if p !in payments {
        return Some(PaymentNotFound);
      }
      var payment := payments[p];
      if !(payment.status.Succeeded? || (order.None? && payment.status.Orphaned?)) {
        return Some(PaymentNotRefundable);
      }
      if order.None? && payment.status.Succeeded? && Refunds.LiveItemOn(items, orders, payment.checkout) {
        return Some(OrdersPaidOut);
      }
      var remaining := RemainingOf(p);
      var amount := remaining;
      if order.Some? {
        var share := Refunds.OrderAmount(Rows(), p, order.value);
        if share.Refused? {
          return Some(share.error);
        }
        amount := share.value;
      }
      if remaining <= 0 {
        return Some(NothingToRefund);
      }
      if amount > remaining {
        return Some(RefundExceedsBalance);
      }
      RefundProofs.RefundStepKeeps(Rows(), p, order);
      refunds := refunds[next := Refund(p, order, amount, RefundStatus.Pending, false)];
      next := next + 1;
      return None;
    }

    method ApplyRefundResult(r: Id, processed: bool) returns (refusal: Option<Error>)
      requires Valid()
      modifies this`refunds
      ensures Valid() && Follows(old(Rows()), Rows(), refusal, Refunds.SettleRefund(old(Rows()), r, processed))
    {
      hide Inv, Evolves;
      if r !in refunds {
        return Some(NotFound);
      }
      RefundProofs.SettleRefundKeeps(Rows(), r, processed);
      if refunds[r].status.Pending? {
        refunds := refunds[r := refunds[r].(status := if processed then Processed else RefundStatus.Failed)];
      }
      return None;
    }

    // ----- Payouts -----

    method TotalOf(due: map<Id, Order>) returns (total: nat)
      ensures total == Payouts.Total(due)
    {
      total := 0;
      var todo := due.Keys;
      ghost var done: set<Id> := {};
      SumOfNone(due, Payouts.Totals());
      while todo != {}
        invariant done + todo == due.Keys && done !! todo
        invariant total == Sum(Part(due, done), Payouts.Totals())
        decreases todo
      {
        var o :| o in todo;
        SumPartGrows(due, Payouts.Totals(), done, o);
        total := total + due[o].total;
        todo := todo - {o};
        done := done + {o};
      }
      assert Part(due, done) == due;
    }

    method ApproveFarmer(farmer: Id, now: int) returns (created: Option<Id>)
      requires Valid()
      modifies this`payouts, this`items, this`next
      ensures Valid() && Rows() == Payouts.ApproveOne(old(Rows()), config, farmer, now)
      ensures created.None? <==> Payouts.Due(old(Rows()), config, farmer, now) == map[]
    {
      hide Inv, Evolves, Payouts.Due, Payouts.Total, Payouts.NewItems;
      PayoutProofs.ApproveOneKeeps(Rows(), config, farmer, now);
      var due := Payouts.Due(Rows(), config, farmer, now);
      if due == map[] {
        return None;
      }
      var total := TotalOf(due);
      payouts := payouts[next := Payout(farmer, total, PayoutStatus.Pending)];
      items := items + Payouts.NewItems(due, next);
      created := Some(next);
      next := next + 1;
    }

    /** The loop over a batch; a farmer without orders due ends in `skipped`, any other gets one payout. */
    method Approve(farmers: seq<Id>, now: int) returns (created: seq<Id>, skipped: seq<Id>)
      requires Valid()
      modifies this`payouts, this`items, this`next
      ensures Valid() && Rows() == Payouts.Approve(old(Rows()), config, farmers, now)
      ensures Distinct(farmers) ==> skipped == WithoutDue(old(Rows()), config, farmers, now)
      ensures |created| + |skipped| == |farmers|
    {
      hide Inv, Evolves, Payouts.Due, Payouts.ApproveOne;
      created, skipped := [], [];
      var i := 0;
      while i < |farmers|
        invariant 0 <= i <= |farmers|
        invariant Valid() && Rows() == Payouts.Approve(old(Rows()), config, farmers[..i], now)
        invariant Distinct(farmers) ==> skipped == WithoutDue(old(Rows()), config, farmers[..i], now)
        invariant |created| + |skipped| == i
      {
        assert farmers[..i + 1][..i] == farmers[..i];
        if Distinct(farmers) {
          DueUntouched(old(Rows()), config, farmers[..i], now, farmers[i]);
        }
        var payout := ApproveFarmer(farmers[i], now);
        if payout.None? {
          skipped := skipped + [farmers[i]];
        } else {
          created := created + [payout.value];
        }
        i := i + 1;
      }
      assert farmers[..i] == farmers;
    }

    method FailPayouts(ids: set<Id>)
      modifies this`payouts
      ensures payouts == Payouts.FailedPayouts(old(payouts), ids)
    {
      payouts := map p | p in payouts ::
        if p in ids && payouts[p].status.Pending? then payouts[p].(status := PayoutStatus.Failed) else payouts[p];
    }

    method FailItems(ids: set<Id>)
      modifies this`items
      ensures items == Payouts.FailedItems(old(items), ids)
    {
      items := map i | i in items ::
        if items[i].payout in ids && items[i].status.Pending? then items[i].(status := PayoutStatus.Failed) else items[i];
    }

    // Of a batch known not to have been sent, what is still pending fails, payouts and items alike.
    method SendRejected(ids: set<Id>)
      requires Valid()
      modifies this`payouts, this`items
      ensures Valid() && Rows() == Payouts.RejectTransfers(old(Rows()), ids)
    {
      hide Inv, Evolves, Payouts.FailedPayouts, Payouts.FailedItems;
      PayoutProofs.RejectTransfersKeeps(Rows(), ids);
      FailPayouts(ids);
      FailItems(ids);
    }

    method ApplyTransferResult(p: Id, outcome: PayoutStatus) returns (refusal: Option<Error>)
      requires Valid()
      modifies this`payouts, this`items
      ensures Valid() && Follows(old(Rows()), Rows(), refusal, Payouts.SettlePayout(old(Rows()), p, outcome))
    {
      hide Inv, Evolves;
      if p !in payouts {
        return Some(NotFound);
      }
      PayoutProofs.SettlePayoutKeeps(Rows(), p, outcome);
      var status := payouts[p].status;
      var allowed := !outcome.Pending? && (status.Pending? || (status.Succeeded? && outcome.Reversed?));
      if allowed {
        payouts := payouts[p := payouts[p].(status := outcome)];
        items := map i | i in items :: if items[i].payout == p then items[i].(status := outcome) else items[i];
      }
      return None;
    }

    // ----- Sourcing requests -----

    method AssignAgent(r: Id, agent: Id, suits: bool) returns (refusal: Option<Error>)
      requires Valid()
      modifies this`requests
      ensures Valid() && Follows(old(Rows()), Rows(), refusal, Sourcing.AssignAgent(old(Rows()), r, agent, suits))
    {
      hide Inv, Evolves, Sync;
      if r !in requests {
        return Some(RequestNotFound);
      }
      if !OpenForMatch(requests[r].status) {
        return Some(MatchingClosed);
      }
      if !suits {
        return Some(AgentMissing);
      }
      RequestProofs.AssignAgentKeeps(Rows(), r, agent, suits);
      requests := requests[r := requests[r].(agent := Some(agent))];
      SyncSourcingRequest(Some(r));
      return None;
    }

    // Accepts the lines one by one, stopping at the first that cannot be.
    method CheckedItems(lines: seq<Checkouts.Line>, matching: set<Id>) returns (picked: Result<map<Id, nat>>)
      ensures picked == Checkouts.Checked(Rows(), lines, matching)
    {
      hide ListingEligible;
      var seen: map<Id, nat> := map[];
      var i := 0;
      while i < |lines|
        invariant 0 <= i <= |lines|
        invariant Checkouts.Checked(Rows(), lines[..i], matching) == Ok(seen)
      {
        var line := lines[i];
        assert lines[..i + 1][..i] == lines[..i];
        if line.listing in seen {
          FailsEarly(Rows(), lines, matching, i + 1);
          return Refused(AlreadySelected);
        }
        if line.listing !in listings {
          FailsEarly(Rows(), lines, matching, i + 1);
          return Refused(ProduceNotFound);
        }
        if !ListingEligible(Rows(), line.listing, line.quantity, matching) {
          FailsEarly(Rows(), lines, matching, i + 1);
          return Refused(ListingNotEligible);
        }
        seen := seen[line.listing := line.quantity];
        i := i + 1;
      }
      assert lines[..i] == lines;
      return Ok(seen);
    }

    /** The old selection survives unless every line is accepted. */
    method SaveAllocations(r: Id, lines: seq<Checkouts.Line>, matching: set<Id>) returns (refusal: Option<Error>)
      requires Valid() && (forall i | 0 <= i < |lines| :: lines[i].quantity > 0)
      modifies this`requests
      ensures Valid() && Follows(old(Rows()), Rows(), refusal,
                                 Checkouts.SaveAllocations(old(Rows()), r, lines, matching))
    {
      hide Inv, Evolves, Sync, Checkouts.Checked;
      if r !in requests {
        return Some(RequestNotFound);
      }
      if requests[r].agent.None? {
        return Some(AgentMissing);
      }
      if !OpenForMatch(requests[r].status) {
        return Some(MatchingClosed);
      }
      var picked := CheckedItems(lines, matching);
      if picked.Refused? {
        return Some(picked.error);
      }
      RequestProofs.SaveAllocationsKeeps(Rows(), r, lines, matching);
      requests := requests[r := requests[r].(allocations := picked.value)];
      SyncSourcingRequest(Some(r));
      return None;
    }

    method SelectedOf(allocations: map<Id, nat>) returns (selected: int)
      ensures selected == Checkouts.Selected(allocations)
    {
      var weight := (quantity: nat) => quantity;
      selected := 0;
      var todo := allocations.Keys;
      ghost var done: set<Id> := {};
      SumOfNone(allocations, weight);
      while todo != {}
        invariant done + todo == allocations.Keys && done !! todo
        invariant selected == Sum(Part(allocations, done), weight)
        decreases todo
      {
        var l :| l in todo;
        SumPartGrows(allocations, weight, done, l);
        selected := selected + allocations[l];
        todo := todo - {l};
        done := done + {l};
      }
      assert Part(allocations, done) == allocations;
      SumSame(allocations, weight, allocations, (quantity: nat) => quantity);
    }

    method ConfirmRequest(r: Id, draft: Checkouts.Draft, matching: set<Id>, now: int) returns (refusal: Option<Error>)
      requires Valid()
      modifies this`listings, this`checkouts, this`orders, this`next, this`requests
      ensures Valid() && Follows(old(Rows()), Rows(), refusal,
                                 Checkouts.ConfirmRequest(old(Rows()), config, r, draft, matching, now))
    {
      hide Inv, Evolves, Sync, Checkouts.Place, Checkouts.HasKey, Checkouts.KeyOfOther, Checkouts.HasLive, Checkouts.Selected;
      hide Checkouts.SortedLines, ListingEligible;
      if r !in requests {
        return Some(RequestNotFound);
      }
      var row := requests[r];
      if Checkouts.KeyOfOther(checkouts, row.buyer, draft.key, r) {
        return Some(KeyTaken);
      }
      if Checkouts.HasKey(checkouts, row.buyer, draft.key) {
        return None;
      }
      if Checkouts.HasLive(checkouts, r) {
        return Some(RequestHasCheckout);
      }
      if row.allocations == map[] {
        return Some(SelectionEmpty);
      }
      var selected := SelectedOf(row.allocations);
      if selected < row.requested {
        return Some(SelectionTooSmall);
      }
      if exists l | l in row.allocations :: !ListingEligible(Rows(), l, row.allocations[l], matching) {
        return Some(ListingNotEligible);
      }
      if !draft.deliverable {
        return Some(InvalidDelivery);
      }
      refusal := Place(draft.(buyer := row.buyer), Checkouts.SortedLines(row.allocations), Some(r), now,
                       ListingNotEligible);
      if refusal.None? {
        SyncSourcingRequest(Some(r));
        CheckoutProofs.ConfirmRequestKeeps(old(Rows()), config, r, draft, matching, now);
      }
    }

    method CloseRequest(r: Id) returns (refusal: Option<Error>)
      requires Valid()
      modifies this`listings, this`orders, this`payments, this`checkouts, this`requests
      ensures Valid() && Follows(old(Rows()), Rows(), refusal, Checkouts.CloseRequest(old(Rows()), r))
    {
      hide Inv, Evolves, Sync, Checkouts.Release;
      if r !in requests {
        return Some(RequestNotFound);
      }
      if requests[r].status.Completed? || requests[r].status.Closed? {
        return Some(RequestFinished);
      }
      if requests[r].status.Confirmed? || requests[r].status.Fulfilment? {
        return Some(RequestHasOpenOrders);
      }
      RequestProofs.CloseRequestKeeps(Rows(), r);
      requests := requests[r := requests[r].(closed := true)];
      if c :| c in checkouts && Checkouts.AwaitingFor(checkouts[c], r) {
        ClosesOver(old(Rows()), r, c);
        ReleaseCheckout(c, CheckoutStatus.Cancelled);
      }
      SyncSourcingRequest(Some(r));
      return None;
    }
  }
}
